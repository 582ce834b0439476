/** Byte-level identities: trimming, the length-prefixed occurrence name, and
    the scoped mailbox id. */
module Identity {
  import opened Updates
  import opened Wrappers

  /** A literal as its bytes. */
  function Ascii(s: string): Text
    requires forall k :: 0 <= k < |s| ==> s[k] < 128 as char
  {
    seq(|s|, k requires 0 <= k < |s| => s[k] as byte)
  }

  // ----------------------------------------------------------------- trimming

  /** The UTF-8 encodings of the Unicode white-space characters. */
  predicate IsSpace(s: Text) {
    || (|s| == 1 && (9 <= s[0] <= 13 || s[0] == 32))
    || (|s| == 2 && s[0] == 0xC2 && (s[1] == 0x85 || s[1] == 0xA0))
    || (|s| == 3 && s[0] == 0xE1 && s[1] == 0x9A && s[2] == 0x80)
    || (|s| == 3 && s[0] == 0xE2 && s[1] == 0x80 && (0x80 <= s[2] <= 0x8A || s[2] == 0xA8 || s[2] == 0xA9 || s[2] == 0xAF))
    || (|s| == 3 && s[0] == 0xE2 && s[1] == 0x81 && s[2] == 0x9F)
    || (|s| == 3 && s[0] == 0xE3 && s[1] == 0x80 && s[2] == 0x80)
  }

  /** The characters Unicode calls white space. */
  predicate WhiteSpace(c: nat) {
    || 0x9 <= c <= 0xD || c == 0x20 || c == 0x85 || c == 0xA0 || c == 0x1680
    || 0x2000 <= c <= 0x200A || c == 0x2028 || c == 0x2029 || c == 0x202F || c == 0x205F || c == 0x3000
  }

  /** UTF-8 of a character below U+10000. */
  function Utf8(c: nat): Text
    requires c < 0x10000
  {
    if c < 0x80 then [c as byte]
    else if c < 0x800 then [(0xC0 + c / 64) as byte, (0x80 + c % 64) as byte]
    else [(0xE0 + c / 4096) as byte, (0x80 + c / 64 % 64) as byte, (0x80 + c % 64) as byte]
  }

  lemma SpaceOf(s: Text) returns (c: nat)
    requires IsSpace(s)
    ensures c < 0x10000 && WhiteSpace(c) && s == Utf8(c)
  {
    if |s| == 1 {
      c := s[0] as nat;
    } else if |s| == 2 {
      c := (s[0] as nat - 0xC0) * 64 + (s[1] as nat - 0x80);
    } else {
      c := (s[0] as nat - 0xE0) * 4096 + (s[1] as nat - 0x80) * 64 + (s[2] as nat - 0x80);
    }
  }

  /** What is trimmed are exactly the encodings of the white-space characters. */
  lemma SpaceIsWhiteSpace(s: Text)
    ensures IsSpace(s) <==> exists c: nat :: c < 0x10000 && WhiteSpace(c) && s == Utf8(c)
  {
    if IsSpace(s) {
      var c := SpaceOf(s);
    }
  }

  predicate StartsWithSpace(s: Text, n: nat) {
    n <= |s| && IsSpace(s[..n])
  }

  predicate EndsWithSpace(s: Text, n: nat) {
    n <= |s| && IsSpace(s[|s| - n..])
  }

  /** The length of the white-space character s begins with, or 0. */
  function Leading(s: Text): (n: nat)
    ensures n <= |s| && n <= 3
    ensures n > 0 <==> exists k :: 1 <= k <= 3 && StartsWithSpace(s, k)
    ensures n > 0 ==> StartsWithSpace(s, n)
  {
    if StartsWithSpace(s, 1) then 1
    else if StartsWithSpace(s, 2) then 2
    else if StartsWithSpace(s, 3) then 3
    else 0
  }

  function Trailing(s: Text): (n: nat)
    ensures n <= |s| && n <= 3
    ensures n > 0 <==> exists k :: 1 <= k <= 3 && EndsWithSpace(s, k)
    ensures n > 0 ==> EndsWithSpace(s, n)
  {
    if EndsWithSpace(s, 1) then 1
    else if EndsWithSpace(s, 2) then 2
    else if EndsWithSpace(s, 3) then 3
    else 0
  }

  function TrimLeft(s: Text): (r: Text)
    ensures Leading(r) == 0
    decreases |s|
  {
    if Leading(s) == 0 then s else TrimLeft(s[Leading(s)..])
  }

  function TrimRight(s: Text): (r: Text)
    ensures Trailing(r) == 0
    ensures r <= s
    decreases |s|
  {
    if Trailing(s) == 0 then s else TrimRight(s[..|s| - Trailing(s)])
  }

  function TrimSpace(s: Text): Text {
    TrimRight(TrimLeft(s))
  }

  /** Neither end of a trimmed string is white space. */
  predicate Trimmed(s: Text) {
    Leading(s) == 0 && Trailing(s) == 0
  }

  lemma PrefixKeepsLeading(p: Text, s: Text)
    requires p <= s && Leading(s) == 0
    ensures Leading(p) == 0
  {
    hide IsSpace;
    forall k | 1 <= k <= 3 ensures !StartsWithSpace(p, k) {
      if k <= |p| {
        assert s[..k] == p[..k];
        assert !StartsWithSpace(s, k);
      }
    }
  }

  /** TrimSpace trims, and trimming again changes nothing. */
  lemma TrimSpaceTrims(s: Text)
    ensures Trimmed(TrimSpace(s)) && TrimSpace(TrimSpace(s)) == TrimSpace(s)
  {
    PrefixKeepsLeading(TrimSpace(s), TrimLeft(s));
  }

  lemma TrimmedIsFixed(s: Text)
    requires Trimmed(s)
    ensures TrimSpace(s) == s
  {
  }

  /** White-space characters and nothing else. */
  ghost predicate Spaces(s: Text)
    decreases |s|
  {
    s == [] || exists n :: 1 <= n <= 3 && StartsWithSpace(s, n) && Spaces(s[n..])
  }

  lemma {:induction false} SpacesJoin(s: Text, t: Text)
    requires Spaces(s) && Spaces(t)
    ensures Spaces(s + t)
    decreases |s|
  {
    hide IsSpace;
    if s == [] {
      assert s + t == t;
    } else {
      var n :| 1 <= n <= 3 && StartsWithSpace(s, n) && Spaces(s[n..]);
      SpacesJoin(s[n..], t);
      assert (s + t)[..n] == s[..n] && (s + t)[n..] == s[n..] + t;
      assert StartsWithSpace(s + t, n);
    }
  }

  lemma {:induction false} TrimLeftDrops(s: Text) returns (pre: Text)
    ensures s == pre + TrimLeft(s) && Spaces(pre)
    decreases |s|
  {
    hide IsSpace, Spaces, Leading, EndsWithSpace, StartsWithSpace;
    pre := [];
    var n := Leading(s);
    if n > 0 {
      FirstSpace(s);
      OneSpace(s[..n]);
      var more := TrimLeftDrops(s[n..]);
      SpacesJoin(s[..n], more);
      pre := s[..n] + more;
      Reassociate(s[..n], more, TrimLeft(s[n..]));
    } else {
      NoSpaces();
    }
  }

  lemma FirstSpace(s: Text)
    requires Leading(s) > 0
    ensures IsSpace(s[..Leading(s)]) && s == s[..Leading(s)] + s[Leading(s)..]
  {
    hide IsSpace;
  }

  lemma OneSpace(s: Text)
    requires IsSpace(s)
    ensures Spaces(s)
  {
    assert s[..|s|] == s && s[|s|..] == [];
    assert StartsWithSpace(s, |s|);
  }

  lemma {:induction false} TrimRightDrops(s: Text) returns (post: Text)
    ensures s == TrimRight(s) + post && Spaces(post)
    decreases |s|
  {
    hide IsSpace, Spaces, Trailing, EndsWithSpace, StartsWithSpace;
    post := [];
    var n := Trailing(s);
    if n > 0 {
      var front, last := s[..|s| - n], s[|s| - n..];
      LastSpace(s);
      OneSpace(last);
      var more := TrimRightDrops(front);
      SpacesJoin(more, last);
      post := more + last;
      Reassociate(TrimRight(front), more, last);
    } else {
      NoSpaces();
    }
  }

  lemma LastSpace(s: Text)
    requires Trailing(s) > 0
    ensures IsSpace(s[|s| - Trailing(s)..]) && s == s[..|s| - Trailing(s)] + s[|s| - Trailing(s)..]
  {
    hide IsSpace;
  }

  lemma Reassociate(a: Text, b: Text, c: Text)
    ensures (a + b) + c == a + (b + c)
  {
  }

  lemma NoSpaces()
    ensures Spaces([])
  {
  }

  /** What TrimSpace takes off either end is white space only. */
  lemma TrimSpaceDrops(s: Text) returns (pre: Text, post: Text)
    ensures s == pre + TrimSpace(s) + post && Spaces(pre) && Spaces(post)
  {
    hide TrimLeft, TrimRight, Spaces;
    pre := TrimLeftDrops(s);
    post := TrimRightDrops(TrimLeft(s));
  }

  // --------------------------------------------------------------------- uvarint

  function Uvarint(n: nat): Text
    decreases n
  {
    if n < 128 then [n as byte] else [(128 + n % 128) as byte] + Uvarint(n / 128)
  }

  datatype Read<T> = Read(value: T, rest: Text)

  /** Reads one uvarint from the front. */
  function ReadUvarint(s: Text): Option<Read<nat>>
    decreases |s|
  {
    if s == [] then None
    else if s[0] < 128 then Some(Read(s[0] as nat, s[1..]))
    else
      match ReadUvarint(s[1..])
      case None => None
      case Some(r) => Some(Read((s[0] - 128) as nat + 128 * r.value, r.rest))
  }

  lemma {:induction false} UvarintRoundTrip(n: nat, rest: Text)
    ensures ReadUvarint(Uvarint(n) + rest) == Some(Read(n, rest))
    decreases n
  {
    var s := Uvarint(n) + rest;
    if n < 128 {
      assert s[1..] == rest;
    } else {
      assert s[1..] == Uvarint(n / 128) + rest;
      UvarintRoundTrip(n / 128, rest);
    }
  }

  /** binary.AppendUvarint: seven bits at a time, low bits first. */
  method AppendUvarint(buf: Text, n: nat) returns (out: Text)
    ensures out == buf + Uvarint(n)
  {
    out := buf;
    var v := n;
    while v >= 128
      invariant out + Uvarint(v) == buf + Uvarint(n)
      decreases v
    {
      assert Uvarint(v) == [(128 + v % 128) as byte] + Uvarint(v / 128);
      out := out + [(128 + v % 128) as byte];
      v := v / 128;
    }
    out := out + [v as byte];
  }

  // ------------------------------------------------------------ field sequences

  function EncodeFields(fields: seq<Text>): Text
    decreases |fields|
  {
    if fields == [] then []
    else Uvarint(|fields[0]|) + fields[0] + EncodeFields(fields[1..])
  }

  /** Reads n length-prefixed fields. */
  function DecodeFields(n: nat, s: Text): Option<Read<seq<Text>>>
    decreases n
  {
    if n == 0 then Some(Read([], s))
    else
      match ReadUvarint(s)
      case None => None
      case Some(len) =>
        if len.value > |len.rest| then None
        else
          match DecodeFields(n - 1, len.rest[len.value..])
          case None => None
          case Some(more) => Some(Read([len.rest[..len.value]] + more.value, more.rest))
  }

  lemma DecodeOne(f: Text, fs: seq<Text>, code: Text, rest: Text)
    requires DecodeFields(|fs|, code) == Some(Read(fs, rest))
    ensures DecodeFields(|fs| + 1, Uvarint(|f|) + (f + code)) == Some(Read([f] + fs, rest))
  {
    hide Uvarint, ReadUvarint;
    UvarintRoundTrip(|f|, f + code);
    assert (f + code)[..|f|] == f && (f + code)[|f|..] == code;
  }

  lemma Regroup(a: Text, b: Text, c: Text, d: Text)
    ensures a + b + c + d == a + (b + (c + d))
  {
  }

  /** Decoding undoes encoding, for every sequence of byte strings. */
  lemma {:induction false} FieldsRoundTrip(fields: seq<Text>, rest: Text)
    ensures DecodeFields(|fields|, EncodeFields(fields) + rest) == Some(Read(fields, rest))
    decreases |fields|
  {
    if fields == [] {
      assert EncodeFields(fields) + rest == rest;
    } else {
      hide DecodeFields, Uvarint;
      var f, fs := fields[0], fields[1..];
      FieldsRoundTrip(fs, rest);
      DecodeOne(f, fs, EncodeFields(fs) + rest, rest);
      Regroup(Uvarint(|f|), f, EncodeFields(fs), rest);
      assert [f] + fs == fields && |fs| + 1 == |fields|;
    }
  }

  /** Two encodings agree only if the fields do, whatever bytes they contain. */
  lemma EncodeFieldsInjective(fs: seq<Text>, gs: seq<Text>)
    requires |fs| == |gs| && EncodeFields(fs) == EncodeFields(gs)
    ensures fs == gs
  {
    FieldsRoundTrip(fs, []);
    FieldsRoundTrip(gs, []);
  }

  lemma {:induction false} EncodeSnoc(fields: seq<Text>, f: Text)
    ensures EncodeFields(fields + [f]) == EncodeFields(fields) + Uvarint(|f|) + f
    decreases |fields|
  {
    if fields == [] {
      assert fields + [f] == [f] && [f][1..] == [];
    } else {
      assert (fields + [f])[1..] == fields[1..] + [f];
      EncodeSnoc(fields[1..], f);
    }
  }

  method BuildName(fields: seq<Text>) returns (name: Text)
    ensures name == EncodeFields(fields)
  {
    name := [];
    for k := 0 to |fields|
      invariant name == EncodeFields(fields[..k])
    {
      assert fields[..k + 1] == fields[..k] + [fields[k]];
      EncodeSnoc(fields[..k], fields[k]);
      name := AppendUvarint(name, |fields[k]|);
      name := name + fields[k];
    }
    assert fields[..|fields|] == fields;
  }

  // ---------------------------------------------------------- occurrence identity

  datatype Dispatch = Dispatch(
    owner: Text,
    computer: Text,
    toAgent: Text,
    kind: Text,
    content: Text,
    trajectory: Text,
    fromAgent: Text)

  /** A random id, or the name that the version 5 UUID is computed from. */
  datatype UpdateId = Fresh | Named(name: Text)

  function Domain(): Text { Ascii("choir:actor-dispatch:v2") }
  function InitialDispatch(): Text { Ascii("initial_dispatch") }
  function ChannelMessage(): Text { Ascii("channel_message") }
  function CoagentResult(): Text { Ascii("coagent_result") }

  function Canonical(d: Dispatch): Dispatch {
    Dispatch(TrimSpace(d.owner), TrimSpace(d.computer), TrimSpace(d.toAgent), TrimSpace(d.kind),
             TrimSpace(d.content), TrimSpace(d.trajectory), TrimSpace(d.fromAgent))
  }

  function Fields(d: Dispatch): seq<Text> {
    [Domain(), d.owner, d.computer, d.toAgent, d.kind, d.content, d.trajectory, d.fromAgent]
  }

  /** The literals as bytes. */
  lemma KindNames()
    ensures InitialDispatch() == [105, 110, 105, 116, 105, 97, 108, 95, 100, 105, 115, 112, 97, 116, 99, 104]
    ensures ChannelMessage() == [99, 104, 97, 110, 110, 101, 108, 95, 109, 101, 115, 115, 97, 103, 101]
    ensures CoagentResult() == [99, 111, 97, 103, 101, 110, 116, 95, 114, 101, 115, 117, 108, 116]
    ensures Domain() == [99, 104, 111, 105, 114, 58, 97, 99, 116, 111, 114, 45, 100, 105, 115, 112, 97, 116, 99, 104, 58, 118, 50]
  {
  }

  /** actorDispatchUpdateID. A dispatch gets a name exactly if its content is not
      blank and it is an initial dispatch, a channel message, or a coagent result
      with a trajectory and a sender; the name is the encoding of the domain and
      the seven trimmed fields, in this order. */
  method DispatchUpdateId(d: Dispatch) returns (id: UpdateId)
    ensures id.Named? <==>
              && TrimSpace(d.content) != []
              && (|| TrimSpace(d.kind) == InitialDispatch() || TrimSpace(d.kind) == ChannelMessage()
                  || (TrimSpace(d.kind) == CoagentResult() && TrimSpace(d.trajectory) != [] && TrimSpace(d.fromAgent) != []))
    ensures id.Named? ==>
              DecodeFields(8, id.name) ==
              Some(Read([Domain(), TrimSpace(d.owner), TrimSpace(d.computer), TrimSpace(d.toAgent), TrimSpace(d.kind),
                         TrimSpace(d.content), TrimSpace(d.trajectory), TrimSpace(d.fromAgent)], []))
    ensures id.Named? ==> id.name == EncodeFields(Fields(Canonical(d)))
  {
    hide TrimSpace, EncodeFields, DecodeFields, Domain, InitialDispatch, ChannelMessage, CoagentResult;
    var t := Canonical(d);
    if t.content == [] {
      return Fresh;
    }
    if t.kind == InitialDispatch() || t.kind == ChannelMessage() {
    } else if t.kind == CoagentResult() {
      if t.trajectory == [] || t.fromAgent == [] {
        return Fresh;
      }
    } else {
      return Fresh;
    }
    KindsDiffer();
    var name := BuildName(Fields(t));
    FieldsRoundTrip(Fields(t), []);
    assert name + [] == name;
    return Named(name);
  }

  lemma KindsDiffer()
    ensures InitialDispatch() != CoagentResult() && ChannelMessage() != CoagentResult()
  {
    KindNames();
    assert |InitialDispatch()| != |CoagentResult()| && |ChannelMessage()| != |CoagentResult()|;
  }

  /** Two dispatches build one name exactly when all seven trimmed fields agree. */
  lemma NameIsCanonicalDispatch(d: Dispatch, e: Dispatch)
    ensures EncodeFields(Fields(Canonical(d))) == EncodeFields(Fields(Canonical(e))) <==>
              && TrimSpace(d.owner) == TrimSpace(e.owner) && TrimSpace(d.computer) == TrimSpace(e.computer)
              && TrimSpace(d.toAgent) == TrimSpace(e.toAgent) && TrimSpace(d.kind) == TrimSpace(e.kind)
              && TrimSpace(d.content) == TrimSpace(e.content) && TrimSpace(d.trajectory) == TrimSpace(e.trajectory)
              && TrimSpace(d.fromAgent) == TrimSpace(e.fromAgent)
  {
    hide TrimSpace, EncodeFields;
    var x, y := Canonical(d), Canonical(e);
    if EncodeFields(Fields(x)) == EncodeFields(Fields(y)) {
      var fs, gs := Fields(x), Fields(y);
      EncodeFieldsInjective(fs, gs);
      assert fs[1] == gs[1] && fs[2] == gs[2] && fs[3] == gs[3] && fs[4] == gs[4];
      assert fs[5] == gs[5] && fs[6] == gs[6] && fs[7] == gs[7];
    }
  }

  // ------------------------------------------------------------ scoped mailbox id

  datatype Scope = Scope(owner: Text, computer: Text, agent: Text)

  function Joined(s: Scope): Text {
    s.owner + [0] + s.computer + [0] + s.agent
  }

  function TrimmedScope(s: Scope): Scope {
    Scope(TrimSpace(s.owner), TrimSpace(s.computer), TrimSpace(s.agent))
  }

  function ScopedMailboxId(s: Scope): Text {
    Joined(TrimmedScope(s))
  }

  /** strings.Split at NUL bytes. */
  function Split(s: Text): (parts: seq<Text>)
    ensures |parts| >= 1
    decreases |s|
  {
    if s == [] then [[]]
    else
      var more := Split(s[1..]);
      if s[0] == 0 then [[]] + more else [[s[0]] + more[0]] + more[1..]
  }

  predicate Clean(p: Text) {
    p != [] && 0 !in p
  }

  predicate CleanScope(s: Scope) {
    Clean(s.owner) && Clean(s.computer) && Clean(s.agent)
  }

  function ParseScoped(m: Text): Option<Scope> {
    var parts := Split(TrimSpace(m));
    if |parts| != 3 || parts[0] == [] || parts[1] == [] || parts[2] == [] then None
    else Some(Scope(parts[0], parts[1], parts[2]))
  }

  lemma {:induction false} SplitClean(p: Text)
    requires 0 !in p
    ensures Split(p) == [p]
    decreases |p|
  {
    if p != [] {
      assert p[0] in p && forall x :: x in p[1..] ==> x in p;
      SplitClean(p[1..]);
      assert [p[0]] + p[1..] == p;
    }
  }

  lemma {:induction false} SplitAt(p: Text, rest: Text)
    requires 0 !in p
    ensures Split(p + [0] + rest) == [p] + Split(rest)
    decreases |p|
  {
    var s := p + [0] + rest;
    if p == [] {
      assert s[1..] == rest;
    } else {
      assert p[0] in p && forall x :: x in p[1..] ==> x in p;
      assert s[1..] == p[1..] + [0] + rest;
      SplitAt(p[1..], rest);
      assert [p[0]] + p[1..] == p;
    }
  }

  function JoinParts(parts: seq<Text>): Text
    decreases |parts|
  {
    if parts == [] then [] else if |parts| == 1 then parts[0] else parts[0] + [0] + JoinParts(parts[1..])
  }

  lemma JoinAfterNul(more: seq<Text>)
    requires |more| >= 1
    ensures JoinParts([[]] + more) == [0] + JoinParts(more)
  {
    assert ([[]] + more)[1..] == more;
  }

  lemma JoinLonger(x: byte, more: seq<Text>)
    requires |more| >= 1
    ensures JoinParts([[x] + more[0]] + more[1..]) == [x] + JoinParts(more)
  {
    var parts := [[x] + more[0]] + more[1..];
    assert parts[0] == [x] + more[0] && parts[1..] == more[1..];
    if |more| > 1 {
      Regroup([x], more[0], [0], JoinParts(more[1..]));
      Reassociate(more[0], [0], JoinParts(more[1..]));
    }
  }

  /** Joining the parts gives the string back, and no part contains a NUL. */
  lemma {:induction false} SplitParts(s: Text)
    ensures forall k :: 0 <= k < |Split(s)| ==> 0 !in Split(s)[k]
    ensures JoinParts(Split(s)) == s
    decreases |s|
  {
    if s != [] {
      var more := Split(s[1..]);
      SplitParts(s[1..]);
      JoinAfterNul(more);
      JoinLonger(s[0], more);
      hide JoinParts;
      assert s == [s[0]] + s[1..];
    }
  }

  lemma JoinedSplits(s: Scope)
    requires 0 !in s.owner && 0 !in s.computer && 0 !in s.agent
    ensures Split(Joined(s)) == [s.owner, s.computer, s.agent]
  {
    assert Joined(s) == s.owner + [0] + (s.computer + [0] + s.agent);
    SplitAt(s.owner, s.computer + [0] + s.agent);
    SplitAt(s.computer, s.agent);
    SplitClean(s.agent);
  }

  /** A NUL inside a part yields more than three parts. */
  lemma {:induction false} SplitCount(p: Text, q: Text)
    ensures |Split(p + [0] + q)| == |Split(p)| + |Split(q)|
    decreases |p|
  {
    var s := p + [0] + q;
    if p == [] {
      assert s[1..] == q;
    } else {
      assert s[1..] == p[1..] + [0] + q;
      SplitCount(p[1..], q);
    }
  }

  lemma {:induction false} SplitDirty(p: Text)
    ensures |Split(p)| == 1 <==> 0 !in p
    decreases |p|
  {
    if p != [] {
      SplitDirty(p[1..]);
      assert p == [p[0]] + p[1..];
    }
  }

  lemma NulIsNoSpace(s: Text)
    requires 0 in s
    ensures !IsSpace(s)
  {
  }

  lemma NulStopsLeading(p: Text, rest: Text)
    requires Leading(p) == 0
    ensures Leading(p + [0] + rest) == 0
  {
    hide IsSpace;
    var m := p + [0] + rest;
    forall k | 1 <= k <= 3 ensures !StartsWithSpace(m, k) {
      if k <= |p| {
        assert m[..k] == p[..k];
        assert !StartsWithSpace(p, k);
      } else if k <= |m| {
        assert m[..k][|p|] == 0;
        NulIsNoSpace(m[..k]);
      }
    }
  }

  lemma NulStopsTrailingAt(rest: Text, p: Text, k: nat)
    requires Trailing(p) == 0 && 1 <= k <= 3
    ensures !EndsWithSpace(rest + [0] + p, k)
  {
    hide IsSpace;
    var m := rest + [0] + p;
    if k <= |p| {
      assert m[|m| - k..] == p[|p| - k..];
      assert !EndsWithSpace(p, k);
    } else if k <= |m| {
      var q := m[|m| - k..];
      assert q[k - 1 - |p|] == m[|rest|];
      NulIsNoSpace(q);
    }
  }

  lemma NulStopsTrailing(rest: Text, p: Text)
    requires Trailing(p) == 0
    ensures Trailing(rest + [0] + p) == 0
  {
    hide EndsWithSpace;
    NulStopsTrailingAt(rest, p, 1);
    NulStopsTrailingAt(rest, p, 2);
    NulStopsTrailingAt(rest, p, 3);
  }

  /** The joined id needs no trimming: its ends are the ends of trimmed parts or NULs. */
  lemma JoinedIsTrimmed(s: Scope)
    requires Trimmed(s.owner) && Trimmed(s.agent)
    ensures Trimmed(Joined(s))
  {
    hide Leading, Trailing;
    assert Joined(s) == s.owner + [0] + (s.computer + [0] + s.agent);
    NulStopsLeading(s.owner, s.computer + [0] + s.agent);
    NulStopsTrailing(s.owner + [0] + s.computer, s.agent);
  }

  /** Parsing a scoped id succeeds exactly for non-empty, NUL-free trimmed parts,
      and then returns them. */
  lemma ParseOfScoped(s: Scope)
    ensures var o, c, a := TrimSpace(s.owner), TrimSpace(s.computer), TrimSpace(s.agent);
            && ScopedMailboxId(s) == o + [0] + c + [0] + a
            && ParseScoped(ScopedMailboxId(s)) ==
               if o != [] && c != [] && a != [] && 0 !in o && 0 !in c && 0 !in a then Some(Scope(o, c, a)) else None
  {
    hide TrimSpace, Split, Leading, Trailing;
    var t := TrimmedScope(s);
    TrimSpaceTrims(s.owner);
    TrimSpaceTrims(s.agent);
    JoinedIsTrimmed(t);
    TrimmedIsFixed(Joined(t));
    if 0 !in t.owner && 0 !in t.computer && 0 !in t.agent {
      JoinedSplits(t);
    } else {
      assert Joined(t) == (t.owner + [0] + t.computer) + [0] + t.agent;
      SplitCount(t.owner + [0] + t.computer, t.agent);
      SplitCount(t.owner, t.computer);
      SplitDirty(t.owner);
      SplitDirty(t.computer);
      SplitDirty(t.agent);
    }
  }

  /** No part contains the separator. */
  predicate NulFree(s: Scope) {
    0 !in s.owner && 0 !in s.computer && 0 !in s.agent
  }

  lemma JoinedCount(s: Scope)
    ensures |Split(Joined(s))| == 3 <==> NulFree(s)
  {
    hide Split;
    assert Joined(s) == (s.owner + [0] + s.computer) + [0] + s.agent;
    SplitCount(s.owner + [0] + s.computer, s.agent);
    SplitCount(s.owner, s.computer);
    SplitDirty(s.owner);
    SplitDirty(s.computer);
    SplitDirty(s.agent);
  }

  /** A scope whose trimmed parts are NUL-free shares its mailbox with no other
      scope, whatever bytes that one contains. */
  lemma ScopedInjective(s: Scope, t: Scope)
    requires NulFree(TrimmedScope(s)) && ScopedMailboxId(s) == ScopedMailboxId(t)
    ensures TrimmedScope(s) == TrimmedScope(t)
  {
    hide TrimSpace, Split;
    var x, y := TrimmedScope(s), TrimmedScope(t);
    JoinedCount(x);
    JoinedCount(y);
    JoinedSplits(x);
    JoinedSplits(y);
    assert [x.owner, x.computer, x.agent] == [y.owner, y.computer, y.agent];
  }

  lemma SpaceEnds(s: Text)
    requires IsSpace(s)
    ensures !(97 <= s[0] <= 122) && !(97 <= s[|s| - 1] <= 122)
  {
  }

  lemma WordEndsAt(w: Text, k: nat)
    requires w != [] && 97 <= w[0] <= 122 && 97 <= w[|w| - 1] <= 122
    ensures 1 <= k ==> !StartsWithSpace(w, k) && !EndsWithSpace(w, k)
  {
    hide IsSpace;
    if 1 <= k <= |w| {
      var a, z := w[..k], w[|w| - k..];
      assert a[0] == w[0] && z[k - 1] == w[|w| - 1];
      if IsSpace(a) {
        SpaceEnds(a);
      }
      if IsSpace(z) {
        SpaceEnds(z);
      }
    }
  }

  lemma WordIsTrimmed(w: Text)
    requires w != [] && 97 <= w[0] <= 122 && 97 <= w[|w| - 1] <= 122
    ensures TrimSpace(w) == w
  {
    hide StartsWithSpace, EndsWithSpace;
    WordEndsAt(w, 1);
    WordEndsAt(w, 2);
    WordEndsAt(w, 3);
  }

  /** Two trimmed words around a NUL are one trimmed part. */
  lemma NulPairIsTrimmed(p: Text, q: Text)
    requires Trimmed(p) && Trimmed(q)
    ensures TrimSpace(p + [0] + q) == p + [0] + q
  {
    hide TrimSpace, Leading, Trailing;
    NulStopsLeading(p, q);
    NulStopsTrailing(p, q);
    TrimmedIsFixed(p + [0] + q);
  }

  /** With a NUL between two trimmed words of a part the mailbox is always shared:
      the word after it can move to the neighbouring part. Next to white space it
      need not be; SharedIff is the exact condition. */
  lemma NulCollides(p: Text, q: Text, r: Text, u: Text)
    requires Trimmed(p) && Trimmed(q) && Trimmed(r) && Trimmed(u)
    ensures var s := Scope(p, q + [0] + r, u); var t := Scope(p + [0] + q, r, u);
            ScopedMailboxId(s) == ScopedMailboxId(t) && TrimmedScope(s) != TrimmedScope(t)
    ensures var s := Scope(u, p, q + [0] + r); var t := Scope(u, p + [0] + q, r);
            ScopedMailboxId(s) == ScopedMailboxId(t) && TrimmedScope(s) != TrimmedScope(t)
  {
    hide TrimSpace, Trimmed;
    NulPairIsTrimmed(q, r);
    NulPairIsTrimmed(p, q);
    TrimmedIsFixed(p);
    TrimmedIsFixed(r);
    TrimmedIsFixed(u);
    JoinedShifts(p, q, r, u);
  }

  /** Moving a word across a separator changes the parts and not the join. */
  lemma JoinedShifts(p: Text, q: Text, r: Text, u: Text)
    ensures Joined(Scope(p, q + [0] + r, u)) == Joined(Scope(p + [0] + q, r, u)) && p != p + [0] + q
    ensures Joined(Scope(u, p, q + [0] + r)) == Joined(Scope(u, p + [0] + q, r))
  {
    assert |p + [0] + q| > |p|;
    Regroup(p + [0], q, [0], r);
  }

  /** The id cut at two of its NUL bytes. */
  predicate Cuts(m: Text, i: nat, j: nat) {
    && i < j < |m| && m[i] == 0 && m[j] == 0
    && Trimmed(m[..i]) && Trimmed(m[i + 1..j]) && Trimmed(m[j + 1..])
  }

  function CutAt(m: Text, i: nat, j: nat): Scope
    requires i < j < |m|
  {
    Scope(m[..i], m[i + 1..j], m[j + 1..])
  }

  lemma CutJoins(m: Text, i: nat, j: nat)
    requires i < j < |m| && m[i] == 0 && m[j] == 0
    ensures Joined(CutAt(m, i, j)) == m
  {
    assert m == m[..i] + [0] + m[i + 1..j] + [0] + m[j + 1..];
  }

  lemma JoinedIsCut(s: Scope)
    ensures var m := Joined(s); var i := |s.owner|; var j := i + 1 + |s.computer|;
            i < j < |m| && m[i] == 0 && m[j] == 0 && CutAt(m, i, j) == s
  {
    var m := Joined(s);
    var i := |s.owner|;
    var j := i + 1 + |s.computer|;
    assert m[..i] == s.owner && m[i + 1..j] == s.computer && m[j + 1..] == s.agent;
  }

  lemma TrimmedParts(s: Scope)
    ensures var t := TrimmedScope(s); Trimmed(t.owner) && Trimmed(t.computer) && Trimmed(t.agent)
  {
    hide TrimSpace, Trimmed;
    TrimSpaceTrims(s.owner);
    TrimSpaceTrims(s.computer);
    TrimSpaceTrims(s.agent);
  }

  lemma TrimmedScopeIsFixed(s: Scope)
    requires Trimmed(s.owner) && Trimmed(s.computer) && Trimmed(s.agent)
    ensures TrimmedScope(s) == s
  {
    hide TrimSpace, Trimmed;
    TrimmedIsFixed(s.owner);
    TrimmedIsFixed(s.computer);
    TrimmedIsFixed(s.agent);
  }

  ghost predicate Shares(s: Scope, t: Scope) {
    ScopedMailboxId(t) == ScopedMailboxId(s) && TrimmedScope(t) != TrimmedScope(s)
  }

  /** The exact condition for a shared mailbox: the joined id has a second pair of
      NUL bytes around which all three pieces are trimmed. */
  lemma SharedIff(s: Scope)
    ensures var x := TrimmedScope(s); var m := ScopedMailboxId(s);
            (exists t :: Shares(s, t)) <==>
            (exists i: nat, j: nat :: Cuts(m, i, j) && !(i == |x.owner| && j == |x.owner| + 1 + |x.computer|))
  {
    hide TrimSpace, Trimmed, Joined;
    var x := TrimmedScope(s);
    var m := ScopedMailboxId(s);
    if t :| Shares(s, t) {
      var y := TrimmedScope(t);
      TrimmedParts(t);
      JoinedIsCut(y);
      JoinedIsCut(x);
      assert Cuts(m, |y.owner|, |y.owner| + 1 + |y.computer|);
    }
    if i: nat, j: nat :| Cuts(m, i, j) && !(i == |x.owner| && j == |x.owner| + 1 + |x.computer|) {
      var t := CutAt(m, i, j);
      CutJoins(m, i, j);
      TrimmedScopeIsFixed(t);
      assert |t.owner| == i && |t.owner| + 1 + |t.computer| == j;
      assert Shares(s, t);
    }
  }

  lemma JoinThree(t: Scope)
    ensures JoinParts([t.owner, t.computer, t.agent]) == Joined(t)
  {
    var parts := [t.owner, t.computer, t.agent];
    assert parts[1..] == [t.computer, t.agent] && [t.computer, t.agent][1..] == [t.agent];
    assert JoinParts(parts[1..]) == t.computer + [0] + t.agent;
    assert t.owner + [0] + (t.computer + [0] + t.agent) == Joined(t);
  }

  /** What a successful parse says about the id. */
  lemma ParseSound(m: Text)
    requires ParseScoped(m).Some?
    ensures var t := ParseScoped(m).value;
            && TrimSpace(m) == t.owner + [0] + t.computer + [0] + t.agent
            && t.owner != [] && t.computer != [] && t.agent != []
            && 0 !in t.owner && 0 !in t.computer && 0 !in t.agent
    ensures CleanScope(ParseScoped(m).value) && TrimSpace(m) == Joined(ParseScoped(m).value)
  {
    hide Split, JoinParts, TrimSpace;
    var t := ParseScoped(m).value;
    SplitParts(TrimSpace(m));
    JoinThree(t);
    assert Split(TrimSpace(m)) == [t.owner, t.computer, t.agent];
  }
}
