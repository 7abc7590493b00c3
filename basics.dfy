/** Small value types shared by the engine model: optional values and raw message bytes. */
module Basics {

  datatype Option<+T> = None | Some(value: T)

  /** One byte of a platform message payload (`uint8_t`). */
  type byte = bv8

  /** The text a payload stands for when the engine copies its bytes into a
      `std::string` of the same length: one character per byte, with the
      byte's value as its code (the lifecycle state and the asset name are
      read this way). */
  function AsString(data: seq<byte>): (s: string)
    ensures |s| == |data|
    ensures forall i :: 0 <= i < |data| ==> s[i] as int == data[i] as int
  {
    seq(|data|, i requires 0 <= i < |data| => (data[i] as int) as char)
  }

  /** Two payloads that read as the same text are the same bytes, so comparing
      the copied string against a name compares the payload itself. */
  lemma AsStringInjective(a: seq<byte>, b: seq<byte>)
    requires AsString(a) == AsString(b)
    ensures a == b
  {
    assert |a| == |b|;
    forall i | 0 <= i < |a|
      ensures a[i] == b[i]
    {
      assert AsString(a)[i] == AsString(b)[i];
      assert a[i] as int == b[i] as int;
    }
  }
}
