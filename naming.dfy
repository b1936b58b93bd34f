/** The interface descriptor the two generators consume, and the lower-case
    conversion the client applies to a method's snake-case name. The
    snake-case conversion itself is an external collaborator, so it is a
    parameter (`snake`) wherever it is used. */
module Naming {

  /** The service identifier and its method identifiers, in declaration
      order, as written in `generate_service_client!(name { m1, m2 })`. The
      name only forms the generated type names (`<Name>Client`,
      `<Name>Service`), which play no part in any call. */
  datatype Descriptor = Descriptor(name: string, methods: seq<string>)

  function LowerChar(c: char): char
  {
    if 'A' <= c <= 'Z' then (c as int + 32) as char else c
  }

  /** The `:lower` modifier, over ASCII letters. Lower-casing keeps the
      length and leaves no upper-case letter (so it is idempotent, see
      `LowerIdempotent`). */
  function Lower(s: string): (r: string)
    ensures |r| == |s|
    ensures forall i :: 0 <= i < |s| ==> r[i] == LowerChar(s[i])
    ensures forall i :: 0 <= i < |r| ==> !('A' <= r[i] <= 'Z')
  {
    seq(|s|, i requires 0 <= i < |s| => LowerChar(s[i]))
  }

  /** A string is already lower-case when `Lower` leaves it unchanged:
      exactly when it holds no upper-case ASCII letter. */
  lemma LowerFixedIff(s: string)
    ensures Lower(s) == s <==> forall i :: 0 <= i < |s| ==> !('A' <= s[i] <= 'Z')
  {
  }

  /** Lower-casing twice is lower-casing once. */
  lemma LowerIdempotent(s: string)
    ensures Lower(Lower(s)) == Lower(s)
  {
    LowerFixedIff(Lower(s));
  }
}
