/** Join payloads: how strings sent by a client are sanitised, and how the id that
    indexes an interaction is built from them (sfu/ws_conn.go, sfu/interaction.go). */
module Payload {

  const MAX_PARSED_LENGTH: nat := 50

  /** The fields of a join payload this model needs. `space` is the namespace. */
  datatype JoinPayload = JoinPayload(
    origin: string,
    space: string,
    interactionName: string,
    userId: string,
    size: int,
    audioOnly: bool
  )

  datatype ReadResult =
    | Joined(jp: JoinPayload)
    | Unreadable
    | WrongKind
    | WrongInteractionName
    | WrongUserId
    | Malformed

  /** What comes first on a websocket: nothing that can be read, or a message of some kind
      whose payload decodes to `raw`, completely or not. */
  datatype FirstMessage = Garbage | Message(kind: string, raw: JoinPayload, wellFormed: bool)

  /** The characters kept by the regular expression `[^a-zA-Z0-9-_]+`. */
  predicate Allowed(c: char) {
    'a' <= c <= 'z' || 'A' <= c <= 'Z' || '0' <= c <= '9' || c == '-' || c == '_'
  }

  /** Digits, letters, '-' (45) and '_' (95), of ASCII alone. */
  lemma KeptCharacters(c: char)
    ensures var code := c as int;
            Allowed(c) <==> 48 <= code <= 57 || 65 <= code <= 90 || 97 <= code <= 122 || code in {45, 95}
  {
  }

  ghost predicate AllAllowed(s: string) {
    forall i :: 0 <= i < |s| ==> Allowed(s[i])
  }

  function Strip(s: string): string {
    if s == [] then [] else (if Allowed(s[0]) then [s[0]] else []) + Strip(s[1..])
  }

  /** A string longer than the limit is cut to one character less than the limit. */
  function ParseString(s: string): string {
    var clean := Strip(s);
    if |clean| > MAX_PARSED_LENGTH then clean[..MAX_PARSED_LENGTH - 1] else clean
  }

  lemma {:induction false} StripKeepsAllowed(s: string)
    ensures AllAllowed(Strip(s))
    ensures |Strip(s)| <= |s|
    ensures AllAllowed(s) ==> Strip(s) == s
    ensures Strip(s) == s ==> AllAllowed(s)
  {
    if s == [] {
    } else {
      StripKeepsAllowed(s[1..]);
      if AllAllowed(s) {
        assert s == [s[0]] + s[1..];
      }
    }
  }

  lemma Associate(a: string, b: string, c: string)
    ensures a + (b + c) == (a + b) + c
  {
  }

  /** Each character is kept or dropped on its own, in order. */
  lemma {:induction false} StripConcat(s: string, t: string)
    ensures Strip(s + t) == Strip(s) + Strip(t)
    decreases |s|
  {
    if s == [] {
      assert s + t == t;
    } else {
      var kept := if Allowed(s[0]) then [s[0]] else [];
      StripConcat(s[1..], t);
      assert (s + t)[1..] == s[1..] + t && (s + t)[0] == s[0];
      Associate(kept, Strip(s[1..]), Strip(t));
    }
  }

  lemma {:induction false} StripEmptyIff(s: string)
    ensures Strip(s) == [] <==> forall i :: 0 <= i < |s| ==> !Allowed(s[i])
    decreases |s|
  {
    if s != [] {
      StripEmptyIff(s[1..]);
      assert forall i :: 0 < i < |s| ==> s[i] == s[1..][i - 1];
    }
  }

  /** A string survives sanitising unchanged exactly when it is short and clean;
      every result is such a string, so sanitising twice changes nothing more. */
  lemma ParseStringFixpoints(s: string)
    ensures ParseString(s) == s <==> AllAllowed(s) && |s| <= MAX_PARSED_LENGTH
    ensures AllAllowed(ParseString(s)) && |ParseString(s)| <= MAX_PARSED_LENGTH
    ensures ParseString(ParseString(s)) == ParseString(s)
  {
    StripKeepsAllowed(s);
    StripKeepsAllowed(ParseString(s));
  }

  /** What is left is the kept characters, all of them up to fifty, and otherwise the first
      forty-nine. */
  lemma ParseStringCut(s: string)
    ensures ParseString(s) <= Strip(s)
    ensures |ParseString(s)| == if |Strip(s)| > 50 then 49 else |Strip(s)|
  {
  }

  /** Sanitising a join payload: the error answers and the accepted payload. */
  function ReadJoin(origin: string, raw: JoinPayload): ReadResult {
    var name := ParseString(raw.interactionName);
    var user := ParseString(raw.userId);
    if |name| == 0 then WrongInteractionName
    else if |user| == 0 then WrongUserId
    else Joined(JoinPayload(origin, ParseString(raw.space), name, user, raw.size, raw.audioOnly))
  }

  ghost predicate SomeAllowed(s: string) {
    exists i :: 0 <= i < |s| && Allowed(s[i])
  }

  /** The two payloads agree but for sanitising, field by field. */
  ghost predicate SanitisedFrom(jp: JoinPayload, origin: string, raw: JoinPayload) {
    jp.origin == origin && jp.size == raw.size && jp.audioOnly == raw.audioOnly
    && jp.space == ParseString(raw.space)
    && jp.interactionName == ParseString(raw.interactionName)
    && jp.userId == ParseString(raw.userId)
  }

  /** A payload is accepted exactly when interaction name and user id each hold a character
      that sanitising keeps; a missing name is reported before a missing user. What is
      accepted is clean and short, and would be accepted unchanged if sent again; each of its
      fields comes from the same field of what was sent. */
  lemma ReadJoinAnswers(origin: string, raw: JoinPayload)
    ensures var r := ReadJoin(origin, raw);
            (r.Joined? <==> SomeAllowed(raw.interactionName) && SomeAllowed(raw.userId))
            && (r == WrongInteractionName <==> !SomeAllowed(raw.interactionName))
            && (r == WrongUserId <==> SomeAllowed(raw.interactionName) && !SomeAllowed(raw.userId))
            && (r.Joined? ==> SanitisedFrom(r.jp, origin, raw) && ReadJoin(origin, r.jp) == r)
  {
    StripEmptyIff(raw.interactionName);
    StripEmptyIff(raw.userId);
    ParseStringFixpoints(raw.interactionName);
    ParseStringFixpoints(raw.userId);
    ParseStringFixpoints(raw.space);
  }

  /** A payload that decodes in part is sanitised and judged like another one, and refused
      only at the end. */
  function ReadFirst(origin: string, m: FirstMessage): ReadResult {
    if m.Garbage? then Unreadable
    else if m.kind != "join" then WrongKind
    else
      var r := ReadJoin(origin, m.raw);
      if r.Joined? && !m.wellFormed then Malformed else r
  }

  /** The first message lets a client in exactly when it is a well-formed join whose name and
      user each hold a character that is kept; every other answer names the first thing
      wrong with it. */
  lemma ReadFirstAnswers(origin: string, m: FirstMessage)
    ensures var r := ReadFirst(origin, m);
            (r.Joined? <==> m.Message? && m.kind == "join" && m.wellFormed
                            && SomeAllowed(m.raw.interactionName) && SomeAllowed(m.raw.userId))
            && (r == WrongInteractionName <==>
                  m.Message? && m.kind == "join" && !SomeAllowed(m.raw.interactionName))
            && (r == WrongUserId <==>
                  m.Message? && m.kind == "join" && SomeAllowed(m.raw.interactionName) && !SomeAllowed(m.raw.userId))
            && (r == Malformed <==>
                  m.Message? && m.kind == "join" && !m.wellFormed
                  && SomeAllowed(m.raw.interactionName) && SomeAllowed(m.raw.userId))
            && (r.Joined? ==> SanitisedFrom(r.jp, origin, m.raw))
            && (r == Unreadable <==> m.Garbage?)
  {
    if m.Message? {
      ReadJoinAnswers(origin, m.raw);
    }
  }

  function GenerateId(jp: JoinPayload): string {
    jp.origin + "#" + jp.space + "#" + jp.interactionName
  }

  /** Index of the last '#', or -1. */
  function LastHash(s: string): (k: int)
    ensures -1 <= k < |s|
    ensures k >= 0 ==> s[k] == '#'
    ensures forall i :: k < i < |s| ==> s[i] != '#'
  {
    if s == [] then -1
    else if s[|s| - 1] == '#' then |s| - 1
    else LastHash(s[..|s| - 1])
  }

  /** Reads an interaction id back, from the right, as (origin, namespace, name). */
  function DecodeId(id: string): (string, string, string) {
    var j := LastHash(id);
    if j < 0 then ("", "", id)
    else
      var i := LastHash(id[..j]);
      if i < 0 then ("", id[..j], id[j + 1..]) else (id[..i], id[..j][i + 1..], id[j + 1..])
  }

  lemma LastHashIs(s: string, k: nat)
    requires k < |s| && s[k] == '#'
    requires '#' !in s[k + 1..]
    ensures LastHash(s) == k
  {
    assert forall i :: k < i < |s| ==> s[i] == s[k + 1..][i - (k + 1)];
  }

  /** The origin may hold any character, '#' included. */
  lemma DecodeGenerated(jp: JoinPayload)
    requires '#' !in jp.space && '#' !in jp.interactionName
    ensures DecodeId(GenerateId(jp)) == (jp.origin, jp.space, jp.interactionName)
  {
    var id := GenerateId(jp);
    var p := jp.origin + "#" + jp.space;
    assert id[|p| + 1..] == jp.interactionName;
    LastHashIs(id, |p|);
    assert id[..|p|] == p;
    assert p[|jp.origin| + 1..] == jp.space;
    LastHashIs(p, |jp.origin|);
    assert id[..|jp.origin|] == jp.origin;
  }

  lemma AllowedHasNoHash(s: string)
    requires AllAllowed(s)
    ensures '#' !in s
  {
  }

  /** Two accepted payloads get the same index key iff they agree on the origin and on
      the sanitised namespace and interaction name. */
  lemma SameIdIff(o1: string, raw1: JoinPayload, o2: string, raw2: JoinPayload)
    requires ReadJoin(o1, raw1).Joined? && ReadJoin(o2, raw2).Joined?
    ensures GenerateId(ReadJoin(o1, raw1).jp) == GenerateId(ReadJoin(o2, raw2).jp)
       <==> o1 == o2
            && ParseString(raw1.space) == ParseString(raw2.space)
            && ParseString(raw1.interactionName) == ParseString(raw2.interactionName)
  {
    forall s ensures '#' !in ParseString(s) {
      ParseStringFixpoints(s);
      AllowedHasNoHash(ParseString(s));
    }
    DecodeGenerated(ReadJoin(o1, raw1).jp);
    DecodeGenerated(ReadJoin(o2, raw2).jp);
  }
}
