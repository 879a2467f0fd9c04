/** Output counting of `Core::DetectDisplays`. DXGI's enumerators are given as
    the HRESULTs they return for indices 0, 1, ...; past the end of a given
    list they return DXGI_ERROR_NOT_FOUND. */
module DisplayEnum {
  import opened HResults

  /** What EnumAdapters1 returns for one adapter index, and what that
      adapter's EnumOutputs returns for each output index. */
  datatype AdapterProbe = AdapterProbe(enumHr: HRESULT, outputs: seq<HRESULT>)

  /** The HRESULT an enumerator returns for index i. */
  function EnumAt(results: seq<HRESULT>, i: nat): HRESULT {
    if i < |results| then results[i] else DXGI_ERROR_NOT_FOUND
  }

  function AdapterAt(adapters: seq<AdapterProbe>, i: nat): HRESULT {
    if i < |adapters| then adapters[i].enumHr else DXGI_ERROR_NOT_FOUND
  }

  /** How many indices an enumeration loop visits: it stops at the first
      DXGI_ERROR_NOT_FOUND and at nothing else, so every other result,
      failures included, is counted. */
  function Listed(results: seq<HRESULT>): (n: nat)
    ensures n <= |results|
    ensures forall j :: 0 <= j < n ==> results[j] != DXGI_ERROR_NOT_FOUND
    ensures EnumAt(results, n) == DXGI_ERROR_NOT_FOUND
  {
    if results == [] || results[0] == DXGI_ERROR_NOT_FOUND then 0 else 1 + Listed(results[1..])
  }

  /** The number of outputs over all adapters enumerated before the first
      adapter index that answers DXGI_ERROR_NOT_FOUND. It never exceeds the
      outputs the adapters hold, and counts all of them when no enumeration
      answers DXGI_ERROR_NOT_FOUND before its end. */
  function DisplayCount(adapters: seq<AdapterProbe>): (n: nat)
    ensures n <= OutputsOf(adapters)
    ensures (forall j :: 0 <= j < |adapters| ==>
      adapters[j].enumHr != DXGI_ERROR_NOT_FOUND && DXGI_ERROR_NOT_FOUND !in adapters[j].outputs) ==>
      n == OutputsOf(adapters)
  {
    if adapters == [] || adapters[0].enumHr == DXGI_ERROR_NOT_FOUND then 0
    else Listed(adapters[0].outputs) + DisplayCount(adapters[1..])
  }

  /** All outputs the adapters hold, listed or not. */
  function OutputsOf(adapters: seq<AdapterProbe>): nat
  {
    if adapters == [] then 0 else |adapters[0].outputs| + OutputsOf(adapters[1..])
  }

  /** Adapters after the first one that answers DXGI_ERROR_NOT_FOUND are never
      looked at: the count is that of the adapters before it, whatever follows. */
  lemma {:induction false} DisplayCountStopsAtNotFound(adapters: seq<AdapterProbe>, k: nat, later: seq<AdapterProbe>)
    requires k < |adapters| && adapters[k].enumHr == DXGI_ERROR_NOT_FOUND
    ensures DisplayCount(adapters) == DisplayCount(adapters[..k])
    ensures DisplayCount(adapters) == DisplayCount(adapters[..k + 1] + later)
  {
    assert (adapters[..k + 1] + later)[0] == adapters[0];
    if k > 0 {
      assert adapters[..k][0] == adapters[0];
      assert adapters[1..][k - 1] == adapters[k];
      DisplayCountStopsAtNotFound(adapters[1..], k - 1, later);
      assert adapters[..k][1..] == adapters[1..][..k - 1];
      assert (adapters[..k + 1] + later)[1..] == adapters[1..][..k] + later;
    }
  }
}
