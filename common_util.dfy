/** The two helpers of src/shared/utils/common.util.ts the services use:
    the card-activation OTP generator and `filteredObject`. */
module CommonUtil {
  import opened Dtos

  /** The OTP alphabet: upper-case letters, then digits. */
  const Chars := "ABCDEFGHIJKLMNOPQRSTUVWXYZ0123456789"
  const DefaultOtpLength := 4

  /** A value `Math.random()` can return. */
  predicate IsDraw(x: real)
  {
    0.0 <= x < 1.0
  }

  /** `chars.charAt(Math.floor(draw * chars.length))`. */
  function OtpChar(draw: real): (c: char)
    requires IsDraw(draw)
    ensures c in Chars && c != '-'
  {
    var k := (draw * |Chars| as real).Floor;
    assert 0 <= k < |Chars|;
    Chars[k]
  }

  /** `generateActiveCardOTP(length)`, with the `length` calls to
      `Math.random()` passed in as `draws`. */
  method GenerateActiveCardOtp(length: nat, draws: seq<real>) returns (otp: string)
    requires |draws| == length
    requires forall k :: 0 <= k < |draws| ==> IsDraw(draws[k])
    ensures |otp| == length
    ensures forall k :: 0 <= k < length ==> otp[k] == OtpChar(draws[k])
    ensures forall k :: 0 <= k < length ==> otp[k] in Chars
    ensures '-' !in otp
  {
    otp := "";
    for i := 0 to length
      invariant |otp| == i
      invariant forall k :: 0 <= k < i ==> otp[k] == OtpChar(draws[k])
      invariant '-' !in otp
    {
      otp := otp + [OtpChar(draws[i])];
    }
  }

  /** `filteredObject`: the keys whose value is not `undefined`, with their
      values.  `null` is a value and is kept. */
  function FilteredObject(o: map<string, JsValue>): (r: map<string, JsValue>)
    ensures forall k :: k in r ==> r[k] != Undefined
    ensures forall k :: k in r ==> k in o && r[k] == o[k]
    ensures forall k :: k in o && o[k] != Undefined ==> k in r
  {
    map k | k in o && o[k] != Undefined :: o[k]
  }

  lemma FilteredObjectKeepsNull(o: map<string, JsValue>, k: string)
    requires k in o && o[k] == Null
    ensures k in FilteredObject(o) && FilteredObject(o)[k] == Null
  {
  }

  lemma FilteredObjectIdempotent(o: map<string, JsValue>)
    ensures FilteredObject(FilteredObject(o)) == FilteredObject(o)
  {
  }

  /** A map without `undefined` values passes through unchanged. */
  lemma FilteredObjectIdentity(o: map<string, JsValue>)
    requires forall k :: k in o ==> o[k] != Undefined
    ensures FilteredObject(o) == o
  {
  }

}
