/** The user id the analysis and chat routes read from an `Authorization`
    header: `Bearer <token>`, where the token is base64 of a JSON object
    holding `user_id`. Base64 and JSON decoding are one input `decode`,
    None when either raises. */
module BearerUser {
  import opened Wrappers
  import opened JsonValue

  const DefaultUser: string := "default_user"

  /** The scheme prefix of section 2.1 of RFC 6750, with its space. */
  const Scheme: string := "Bearer "

  predicate StartsAt(s: string, i: nat, w: string) {
    i + |w| <= |s| && s[i..i + |w|] == w
  }

  predicate Occurs(s: string, w: string) {
    exists i: nat :: i <= |s| && StartsAt(s, i, w)
  }

  /** `s.replace(w, '')`: occurrences are removed in one left-to-right pass,
      without overlaps. */
  function RemoveAll(s: string, w: string): (r: string)
    requires w != []
    ensures |r| <= |s|
    decreases |s|
  {
    if |s| < |w| then s
    else if s[..|w|] == w then RemoveAll(s[|w|..], w)
    else [s[0]] + RemoveAll(s[1..], w)
  }

  /** Text without an occurrence is left as it is. */
  lemma {:induction false} NoOccurrenceKept(s: string, w: string)
    requires w != [] && !Occurs(s, w)
    ensures RemoveAll(s, w) == s
    decreases |s|
  {
    if |s| >= |w| {
      assert !StartsAt(s, 0, w);
      forall i: nat | i <= |s[1..]| && StartsAt(s[1..], i, w)
        ensures false
      {
        assert s[1..][i..i + |w|] == s[i + 1..i + 1 + |w|];
        assert StartsAt(s, i + 1, w);
      }
      NoOccurrenceKept(s[1..], w);
    }
  }

  /** A leading occurrence is dropped. */
  lemma LeadingOccurrenceDropped(w: string, s: string)
    requires w != []
    ensures RemoveAll(w + s, w) == RemoveAll(s, w)
  {
    assert (w + s)[..|w|] == w;
    assert (w + s)[|w|..] == s;
  }

  /** The token of a header: `authorization.replace('Bearer ', '')`. */
  function Token(header: string): string {
    RemoveAll(header, Scheme)
  }

  /** Every occurrence goes, not only the prefix: "Bearer xBearer y" gives
      the token "xy". */
  lemma InnerSchemeRemoved()
    ensures Token("Bearer xBearer y") == "xy"
  {
    LeadingOccurrenceDropped(Scheme, "xBearer y");
    assert "Bearer xBearer y" == Scheme + "xBearer y";
    var s := "xBearer y";
    assert s[..|Scheme|] != Scheme;
    assert s[1..] == Scheme + "y";
    LeadingOccurrenceDropped(Scheme, "y");
    assert RemoveAll("y", Scheme) == "y";
    assert RemoveAll(s, Scheme) == [s[0]] + RemoveAll(s[1..], Scheme);
  }

  /** The user id: the default unless the header starts with the scheme and
      its token decodes to a JSON object; then the object's `user_id`, or
      the default when it has none. Any failure of decoding or of `.get` on
      something that is not a dict is caught and leaves the default. */
  function UserId(authorization: Option<string>, decode: string -> Option<Json>): (r: Json)
    ensures authorization.None? || !StartsAt(authorization.value, 0, Scheme) ==> r == JStr(DefaultUser)
    ensures authorization.Some? && StartsAt(authorization.value, 0, Scheme) ==>
      var data := decode(Token(authorization.value));
      && (data.None? || !data.value.JObj? ==> r == JStr(DefaultUser))
      && (data.Some? && data.value.JObj? && "user_id" !in data.value.fields ==> r == JStr(DefaultUser))
      && (data.Some? && data.value.JObj? && "user_id" in data.value.fields ==> r == data.value.fields["user_id"])
  {
    if authorization.Some? && authorization.value != "" && StartsAt(authorization.value, 0, Scheme) then
      match decode(Token(authorization.value))
      case Some(JObj(fields)) => PyGet(fields, "user_id", JStr(DefaultUser))
      case _ => JStr(DefaultUser)
    else JStr(DefaultUser)
  }

  /** For a header `Bearer <t>` whose token holds no further "Bearer ", the
      user id is the `user_id` of what `t` decodes to. */
  lemma BearerTokenDecoded(t: string, decode: string -> Option<Json>)
    requires !Occurs(t, Scheme)
    requires decode(t).Some? && decode(t).value.JObj? && "user_id" in decode(t).value.fields
    ensures UserId(Some(Scheme + t), decode) == decode(t).value.fields["user_id"]
  {
    LeadingOccurrenceDropped(Scheme, t);
    NoOccurrenceKept(t, Scheme);
    assert StartsAt(Scheme + t, 0, Scheme);
  }

  /** A header in another scheme, or a lower-case one, is never decoded. */
  lemma OtherSchemesIgnored(t: string, decode: string -> Option<Json>)
    ensures UserId(Some("bearer " + t), decode) == JStr(DefaultUser)
    ensures UserId(Some("Basic " + t), decode) == JStr(DefaultUser)
  {
    assert ("bearer " + t)[0] != Scheme[0];
    assert ("Basic " + t)[1] != Scheme[1];
  }
}
