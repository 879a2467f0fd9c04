/** Windows HRESULT status codes as the capture code uses them: a signed 32-bit
    value whose sign bit marks failure. */
module HResults {

  newtype HRESULT = x: int | -0x8000_0000 <= x < 0x8000_0000

  /** FAILED(hr): the severity bit is set, i.e. the signed value is negative. */
  predicate Failed(hr: HRESULT) {
    hr < 0
  }

  /** The signed HRESULT whose 32-bit pattern is `bits`. */
  function FromBits(bits: nat): HRESULT
    requires bits < 0x1_0000_0000
  {
    if bits < 0x8000_0000 then bits as HRESULT else (bits - 0x1_0000_0000) as HRESULT
  }

  const S_OK: HRESULT := 0
  const E_INVALIDARG: HRESULT := FromBits(0x8007_0057)
  const E_UNEXPECTED: HRESULT := FromBits(0x8000_FFFF)
  const DXGI_ERROR_NOT_FOUND: HRESULT := FromBits(0x887A_0002)
  const DXGI_ERROR_WAIT_TIMEOUT: HRESULT := FromBits(0x887A_0027)
}
