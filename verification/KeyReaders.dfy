/** The code that reads keys back: the open-request scan, the sequence parsers and the metrics classifier. */
module KeyReaders {
  import opened Common
  import opened Text
  import opened KeyLayout

  lemma BuiltKey(prefix: string, id: KeyId)
    requires PlainId(id)
    ensures GoKey(prefix, id) == Join(PrefixSegments(prefix) + Parts(id))
    ensures Split(GoKey(prefix, id)) == PrefixSegments(prefix) + Parts(id)
  {
    PartsPlain(id);
    GoJoinSegments(prefix, Parts(id));
  }

  // ---------------------------------------------------------------- path.Base and the session id

  /** `path.Base`. */
  function Base(p: string): string {
    if p == "" then "."
    else
      var segs := Split(TrimRight(p));
      var b := segs[|segs| - 1];
      if b == "" then "/" else b
  }

  lemma {:induction false} SplitEnds(s: string)
    ensures s == "" ==> Split(s) == [""]
    ensures s != "" && s[0] == '/' ==> Split(s)[0] == ""
    ensures s != "" && s[|s| - 1] == '/' ==> |Split(s)| >= 2 && Split(s)[|Split(s)| - 1] == ""
  {
    if s != "" { SplitEnds(s[1..]); }
  }

  lemma BaseOfKey(prefix: string, id: KeyId)
    requires PlainId(id)
    ensures Base(GoKey(prefix, id)) == Parts(id)[|Parts(id)| - 1]
  {
    BuiltKey(prefix, id);
    PartsPlain(id);
    var k, p := GoKey(prefix, id), Parts(id);
    var segs := PrefixSegments(prefix) + p;
    assert segs[|segs| - 1] == p[|p| - 1] && Plain(p[|p| - 1]);
    SplitEnds(k);
  }

  /** What `Server.Run` takes as the session id of a listed key. */
  function ListedSessionId(key: string): string { TrimSuffix(Base(key), ".json") }

  lemma ListedIdIsSessionId(prefix: string, sid: string)
    requires NoSlash(sid)
    ensures ListedSessionId(GoKey(prefix, OpenKey(sid))) == sid
  {
    BaseOfKey(prefix, OpenKey(sid));
    Suffixed(sid, ".json");
  }

  // ---------------------------------------------------------------- listing under OpenPrefix

  lemma OpenPrefixIs(prefix: string)
    ensures GoOpenPrefix(prefix) == Join(PrefixSegments(prefix) + ["v1", "open"]) + "/"
  {
    GoJoinSegments(prefix, ["v1", "open"]);
  }

  lemma CancelPrefix(p: string, a: string, b: string)
    ensures HasPrefix(p + a, p + b) <==> HasPrefix(a, b)
  {
    if HasPrefix(p + a, p + b) {
      assert (p + a)[|p|..] == a && (p + b)[|p|..] == b;
      assert (p + a)[..|p + b|] == p + b;
      assert a[..|b|] == (p + a)[|p|..|p + b|] == b;
    }
    if HasPrefix(a, b) {
      assert a == b + a[|b|..];
      assert p + a == (p + b) + a[|b|..];
    }
  }

  /** The text of a key after the cleaned prefix and "v1/". */
  function Tail(id: KeyId): string { Join(Parts(id)[1..]) }

  function Front(c: seq<string>): string { if c == [] then "v1/" else Join(c) + "/v1/" }

  lemma FrontJoin(c: seq<string>, parts: seq<string>)
    requires |parts| >= 2 && parts[0] == "v1"
    ensures Join(c + parts) == Front(c) + Join(parts[1..])
  {
    var rest := Join(parts[1..]);
    assert Join(parts) == "v1" + "/" + rest;
    if c == [] {
      assert c + parts == parts;
    } else {
      JoinAppend(c, parts);
      assert Join(c) + "/" + ("v1" + "/" + rest) == (Join(c) + "/v1/") + rest;
    }
  }

  lemma KeyTail(prefix: string, id: KeyId)
    requires PlainId(id)
    ensures GoKey(prefix, id) == Front(PrefixSegments(prefix)) + Tail(id)
    ensures GoOpenPrefix(prefix) == Front(PrefixSegments(prefix)) + "open/"
  {
    BuiltKey(prefix, id);
    OpenPrefixIs(prefix);
    var c := PrefixSegments(prefix);
    FrontJoin(c, Parts(id));
    FrontJoin(c, ["v1", "open"]);
    assert Front(c) + "open" + "/" == Front(c) + "open/";
  }

  lemma TailStart(id: KeyId)
    ensures HasPrefix(Tail(id), "open/") <==> id.OpenKey?
  {
    var p := Parts(id)[1..];
    assert |p| >= 2 && Tail(id) == p[0] + "/" + Join(p[1..]);
    assert id.OpenKey? ==> p[0] + "/" == "open/";
    assert id.OpenResultKey? ==> Tail(id)[4] == p[0][4] == '-';
    assert !id.OpenKey? && !id.OpenResultKey? ==> Tail(id)[0] == p[0][0] && p[0][0] != 'o';
  }

  /** A scan under the open prefix sees exactly the open requests among the tunnel's objects. */
  lemma OnlyOpenKeysListed(prefix: string, id: KeyId)
    requires PlainId(id)
    ensures HasPrefix(GoKey(prefix, id), GoOpenPrefix(prefix)) <==> id.OpenKey?
  {
    KeyTail(prefix, id);
    CancelPrefix(Front(PrefixSegments(prefix)), Tail(id), "open/");
    TailStart(id);
  }

  // ---------------------------------------------------------------- sequence numbers

  /** `strconv.ParseUint(s, 10, 64)`. */
  function ParseUint(s: string): Option<uint64> {
    if s == "" then None
    else
      match Value(s)
      case None => None
      case Some(v) => if v < U64 then Some(v as uint64) else None
  }

  function GoParseSeq(s: string): Option<uint64> { ParseUint(TrimSuffix(Base(s), ".bin")) }

  /** `String.toLong` on ASCII text: an optional sign, then digits, within the signed 64-bit range. */
  function ToLong(s: string): Option<int> {
    var negative := s != "" && s[0] == '-';
    var digits := if s != "" && (s[0] == '-' || s[0] == '+') then s[1..] else s;
    if digits == "" then None
    else
      match Value(digits)
      case None => None
      case Some(v) =>
        var n := if negative then 0 - v else v;
        if Wrap64(n) == n then Some(n) else None
  }

  function KotlinParseSeq(s: string): Option<int> {
    var segs := Split(s);
    ToLong(TrimSuffix(segs[|segs| - 1], ".bin"))
  }

  lemma GoSeqRoundTrip(prefix: string, dir: string, sid: string, n: uint64)
    requires Plain(dir) && Plain(sid)
    ensures GoParseSeq(GoKey(prefix, DataKey(dir, sid, n))) == Some(n)
  {
    BaseOfKey(prefix, DataKey(dir, sid, n));
    PaddedChars(n, 20);
    PaddedValue(n, 20);
    Suffixed(FormatSeq(n), ".bin");
  }

  lemma ToLongOfDigits(s: string, n: uint64)
    requires s != "" && IsDigit(s[0]) && Value(s) == Some(n)
    ensures ToLong(s) == if n <= I64_MAX then Some(n) else None
  {
  }

  /** Go reads back every 64-bit sequence number; Kotlin exactly those below 2^63. */
  lemma KotlinSeqRoundTrip(prefix: string, dir: string, sid: string, n: uint64)
    requires Plain(dir) && Plain(sid)
    ensures KotlinParseSeq(KotlinKey(prefix, DataKey(dir, sid, n))) == if n <= I64_MAX then Some(n) else None
  {
    var id := DataKey(dir, sid, n);
    var name := FormatSeq(n);
    PaddedChars(n, 20);
    PaddedValue(n, 20);
    assert name[0] in name;
    Suffixed(name, ".bin");
    ToLongOfDigits(name, n);
    PartsPlain(id);
    KotlinJoinSegments(prefix, Parts(id));
    var segs := Split(KotlinKey(prefix, id));
    assert segs[|segs| - 1] == name + ".bin";
  }

  lemma Pow10Facts()
    ensures U64 < Pow10(20)
  {
    assert Pow10(4) == 10_000;
    assert Pow10(8) == 10_000 * Pow10(4);
    assert Pow10(12) == 10_000 * Pow10(8);
    assert Pow10(16) == 10_000 * Pow10(12);
    assert Pow10(20) == 10_000 * Pow10(16);
  }

  /** Every 64-bit sequence number takes exactly twenty digits. */
  lemma TwentyDigits(n: uint64)
    ensures |FormatSeq(n)| == 20 && forall c :: c in FormatSeq(n) ==> IsDigit(c)
  {
    Pow10Facts();
    PaddedIsFixed(n, 20);
    FixedLength(n, 20);
    PaddedChars(n, 20);
  }

  /** What follows the prefix and the version in the documented keys. */
  function DocumentedTail(id: KeyId): string {
    match id
    case OpenKey(sid) => "open/" + (sid + ".json")
    case OpenResultKey(sid) => "open-result/" + (sid + ".json")
    case DataKey(dir, sid, n) => "data/" + (dir + "/" + (sid + "/" + (FormatSeq(n) + ".bin")))
    case AckKey(dir, sid) => "ack/" + (dir + "/" + (sid + ".json"))
    case CloseKey(side, sid) => "close/" + (side + "/" + (sid + ".json"))
    case HeartbeatKey(side, sid) => "heartbeat/" + (side + "/" + (sid + ".json"))
  }

  lemma JoinFirst(a: string, rest: seq<string>)
    requires rest != []
    ensures Join([a] + rest) == a + "/" + Join(rest)
  {
    assert ([a] + rest)[1..] == rest;
  }

  lemma JoinThree(a: string, b: string, c: string)
    ensures Join([a, b, c]) == a + "/" + (b + "/" + c)
  {
    JoinFirst(b, [c]);
    JoinFirst(a, [b, c]);
    assert [a] + [b, c] == [a, b, c] && [b] + [c] == [b, c];
  }

  lemma JoinFour(a: string, b: string, c: string, d: string)
    ensures Join([a, b, c, d]) == a + "/" + (b + "/" + (c + "/" + d))
  {
    JoinThree(b, c, d);
    JoinFirst(a, [b, c, d]);
    assert [a] + [b, c, d] == [a, b, c, d];
  }

  lemma JoinTwo(a: string, b: string)
    ensures Join([a, b]) == a + "/" + b
  {
    JoinFirst(a, [b]);
    assert [a] + [b] == [a, b];
  }

  lemma TwoPartTail(id: KeyId, a: string, b: string)
    requires Parts(id) == ["v1", a, b]
    ensures Tail(id) == a + "/" + b
  {
    assert ["v1", a, b][1..] == [a, b];
    JoinTwo(a, b);
  }

  lemma ThreePartTail(id: KeyId, a: string, b: string, c: string)
    requires Parts(id) == ["v1", a, b, c]
    ensures Tail(id) == a + "/" + (b + "/" + c)
  {
    assert ["v1", a, b, c][1..] == [a, b, c];
    JoinThree(a, b, c);
  }

  lemma FourPartTail(id: KeyId, a: string, b: string, c: string, d: string)
    requires Parts(id) == ["v1", a, b, c, d]
    ensures Tail(id) == a + "/" + (b + "/" + (c + "/" + d))
  {
    assert ["v1", a, b, c, d][1..] == [a, b, c, d];
    JoinFour(a, b, c, d);
  }

  lemma TailIsDocumented(id: KeyId)
    ensures Tail(id) == DocumentedTail(id)
  {
    match id
    case OpenKey(sid) => TwoPartTail(id, "open", sid + ".json");
    case OpenResultKey(sid) => TwoPartTail(id, "open-result", sid + ".json");
    case DataKey(dir, sid, n) => FourPartTail(id, "data", dir, sid, FormatSeq(n) + ".bin");
    case AckKey(dir, sid) => ThreePartTail(id, "ack", dir, sid + ".json");
    case CloseKey(side, sid) => ThreePartTail(id, "close", side, sid + ".json");
    case HeartbeatKey(side, sid) => ThreePartTail(id, "heartbeat", side, sid + ".json");
  }

  /** The documented keys, for a prefix that is a single plain segment. */
  lemma DocumentedKeys(prefix: string, id: KeyId)
    requires Plain(prefix) && PlainId(id)
    ensures GoKey(prefix, id) == prefix + "/v1/" + DocumentedTail(id)
  {
    PlainPrefix(prefix);
    KeyTail(prefix, id);
    TailIsDocumented(id);
  }

  lemma {:induction false} OnlySlashes(s: string)
    requires forall c :: c in s ==> c == '/'
    ensures TrimLeft(s) == ""
  {
    if s != "" {
      assert s[0] in s && forall c :: c in s[1..] ==> c in s;
      OnlySlashes(s[1..]);
    }
  }

  /** An empty prefix, or one of slashes only, stands for the default. */
  lemma DefaultKeys(prefix: string, id: KeyId)
    requires (forall c :: c in prefix ==> c == '/') && PlainId(id)
    ensures GoKey(prefix, id) == "s3s5/v1/" + DocumentedTail(id)
  {
    OnlySlashes(prefix);
    assert NormalizePrefix(prefix) == "s3s5";
    assert TrimSlashes("s3s5") == "s3s5";
    DocumentedKeys("s3s5", id);
    assert "s3s5" + "/v1/" == "s3s5/v1/";
  }

  lemma PlainPrefix(prefix: string)
    requires Plain(prefix)
    ensures PrefixSegments(prefix) == [prefix]
  {
    assert prefix[0] in prefix && prefix[|prefix| - 1] in prefix;
    assert TrimSlashes(prefix) == prefix;
    SplitWord(prefix);
    assert [prefix][..0] == [];
    assert CleanSegments([prefix]) == PushSegment(CleanSegments([]), prefix);
  }

  /** Lexical order of data keys is numeric order of sequence numbers. */
  lemma KeysSortNumerically(prefix: string, dir: string, sid: string, a: uint64, b: uint64)
    requires Plain(dir) && Plain(sid)
    ensures Less(GoKey(prefix, DataKey(dir, sid, a)), GoKey(prefix, DataKey(dir, sid, b))) <==> a < b
  {
    if a == b { LessIrreflexive(GoKey(prefix, DataKey(dir, sid, a))); }
    if a < b { SmallerFirst(prefix, dir, sid, a, b); }
    if b < a {
      SmallerFirst(prefix, dir, sid, b, a);
      var x, y := GoKey(prefix, DataKey(dir, sid, a)), GoKey(prefix, DataKey(dir, sid, b));
      if Less(x, y) { LessTransitive(x, y, x); LessIrreflexive(x); }
    }
  }

  function DataFolder(prefix: string, dir: string, sid: string): string {
    Join(PrefixSegments(prefix) + ["v1", "data", dir, sid]) + "/"
  }

  lemma DataKeyText(prefix: string, dir: string, sid: string, n: nat)
    requires Plain(dir) && Plain(sid)
    ensures GoKey(prefix, DataKey(dir, sid, n)) == DataFolder(prefix, dir, sid) + (FormatSeq(n) + ".bin")
  {
    BuiltKey(prefix, DataKey(dir, sid, n));
    var front := PrefixSegments(prefix) + ["v1", "data", dir, sid];
    assert PrefixSegments(prefix) + Parts(DataKey(dir, sid, n)) == front + [FormatSeq(n) + ".bin"];
    JoinAppend(front, [FormatSeq(n) + ".bin"]);
  }

  lemma SmallerFirst(prefix: string, dir: string, sid: string, a: uint64, b: uint64)
    requires Plain(dir) && Plain(sid) && a < b
    ensures Less(GoKey(prefix, DataKey(dir, sid, a)), GoKey(prefix, DataKey(dir, sid, b)))
  {
    Pow10Facts();
    PaddedIsFixed(a, 20);
    PaddedIsFixed(b, 20);
    FixedOrder(a, b, 20);
    FixedLength(a, 20);
    FixedLength(b, 20);
    LessAppend(FormatSeq(a), FormatSeq(b), ".bin", ".bin");
    DataKeyText(prefix, dir, sid, a);
    DataKeyText(prefix, dir, sid, b);
    LessAfter(DataFolder(prefix, dir, sid), FormatSeq(a) + ".bin", FormatSeq(b) + ".bin");
  }

  // ---------------------------------------------------------------- the metrics classifier

  datatype KeyClass =
    | ClassUnknown | ClassOpen | ClassOpenResult
    | ClassDataC2S | ClassDataS2C | ClassAckC2S | ClassAckS2C
    | ClassCloseClient | ClassCloseServer | ClassHeartbeatClient | ClassHeartbeatServer

  function SplitKey(key: string): seq<string> {
    var clean := Clean(TrimSlashes(key));
    if clean == "." || clean == "" then [] else Split(clean)
  }

  /** Everything after the first "v1" segment. */
  function AfterV1(parts: seq<string>): Option<seq<string>> {
    if parts == [] then None
    else if parts[0] == "v1" then Some(parts[1..])
    else AfterV1(parts[1..])
  }

  function ByWord(word: string, first: string, a: KeyClass, second: string, b: KeyClass): KeyClass {
    if word == first then a else if word == second then b else ClassUnknown
  }

  function ClassifyParts(parts: seq<string>): KeyClass {
    if parts == [] then ClassUnknown
    else if parts[0] == "open" then (if |parts| == 2 then ClassOpen else ClassUnknown)
    else if parts[0] == "open-result" then (if |parts| == 2 then ClassOpenResult else ClassUnknown)
    else if parts[0] == "data" then
      (if |parts| >= 4 then ByWord(parts[1], "c2s", ClassDataC2S, "s2c", ClassDataS2C) else ClassUnknown)
    else if parts[0] == "ack" then
      (if |parts| >= 3 then ByWord(parts[1], "c2s", ClassAckC2S, "s2c", ClassAckS2C) else ClassUnknown)
    else if parts[0] == "close" then
      (if |parts| >= 3 then ByWord(parts[1], "client", ClassCloseClient, "server", ClassCloseServer) else ClassUnknown)
    else if parts[0] == "heartbeat" then
      (if |parts| >= 3 then ByWord(parts[1], "client", ClassHeartbeatClient, "server", ClassHeartbeatServer)
       else ClassUnknown)
    else ClassUnknown
  }

  function ClassifyKey(key: string): KeyClass {
    match AfterV1(SplitKey(key))
    case None => ClassUnknown
    case Some(parts) => ClassifyParts(parts)
  }

  /** The shape that each class asks of the segments after "v1": its words, and how many segments there are. */
  predicate HasShape(parts: seq<string>, c: KeyClass) {
    match c
    case ClassUnknown => false
    case ClassOpen => |parts| == 2 && parts[0] == "open"
    case ClassOpenResult => |parts| == 2 && parts[0] == "open-result"
    case ClassDataC2S => |parts| >= 4 && parts[..2] == ["data", "c2s"]
    case ClassDataS2C => |parts| >= 4 && parts[..2] == ["data", "s2c"]
    case ClassAckC2S => |parts| >= 3 && parts[..2] == ["ack", "c2s"]
    case ClassAckS2C => |parts| >= 3 && parts[..2] == ["ack", "s2c"]
    case ClassCloseClient => |parts| >= 3 && parts[..2] == ["close", "client"]
    case ClassCloseServer => |parts| >= 3 && parts[..2] == ["close", "server"]
    case ClassHeartbeatClient => |parts| >= 3 && parts[..2] == ["heartbeat", "client"]
    case ClassHeartbeatServer => |parts| >= 3 && parts[..2] == ["heartbeat", "server"]
  }

  lemma ShapeIff(parts: seq<string>, c: KeyClass)
    requires c != ClassUnknown
    ensures ClassifyParts(parts) == c <==> HasShape(parts, c)
  {
    if |parts| >= 2 { assert parts[..2] == [parts[0], parts[1]]; }
  }

  /** Any text at all is classified by the shape of what follows its first "v1" segment, and by nothing else. */
  lemma ClassifiedIff(key: string, c: KeyClass)
    requires c != ClassUnknown
    ensures ClassifyKey(key) == c <==> AfterV1(SplitKey(key)).Some? && HasShape(AfterV1(SplitKey(key)).value, c)
  {
    if AfterV1(SplitKey(key)).Some? { ShapeIff(AfterV1(SplitKey(key)).value, c); }
  }

  /** True when a list prefix is recognised as the open scan. */
  predicate ClassifyListPrefix(prefix: string) {
    ClassifyKey(TrimSuffix(prefix, "/") + "/placeholder.json") == ClassOpen
  }

  /** The class each kind of object ought to have. */
  function ClassOf(id: KeyId): KeyClass {
    match id
    case OpenKey(_) => ClassOpen
    case OpenResultKey(_) => ClassOpenResult
    case DataKey(dir, _, _) => ByWord(dir, "c2s", ClassDataC2S, "s2c", ClassDataS2C)
    case AckKey(dir, _) => ByWord(dir, "c2s", ClassAckC2S, "s2c", ClassAckS2C)
    case CloseKey(side, _) => ByWord(side, "client", ClassCloseClient, "server", ClassCloseServer)
    case HeartbeatKey(side, _) => ByWord(side, "client", ClassHeartbeatClient, "server", ClassHeartbeatServer)
  }

  lemma {:induction false} CleanIsCanonical(segs: seq<string>)
    ensures Canonical(CleanSegments(segs))
  {
    if segs != [] {
      var n := |segs| - 1;
      CleanIsCanonical(segs[..n]);
      var out := CleanSegments(segs[..n]);
      if out != [] { CanonicalFront(out); }
      CanonicalFront(out + [segs[n]]);
      assert (out + [segs[n]])[..|out|] == out;
    }
  }

  lemma CanonicalAppend(c: seq<string>, p: seq<string>)
    requires Canonical(c) && AllPlain(p)
    ensures Canonical(c + p)
  {
    forall i | 0 <= i < |c + p|
      ensures (c + p)[i] != "" && (c + p)[i] != "." && ((c + p)[i] == ".." ==> i == 0 || (c + p)[i - 1] == "..")
    {
      if i >= |c| { assert (c + p)[i] in p; }
    }
  }

  /** A built key comes apart into the segments it was made of. */
  lemma SplitBuiltKey(segs: seq<string>)
    requires segs != [] && Canonical(segs) && (forall s :: s in segs ==> NoSlash(s)) && Plain(segs[|segs| - 1])
    ensures SplitKey(Join(segs)) == segs
  {
    var k := Join(segs);
    SplitJoin(segs);
    CleanFixed(segs);
    SplitEnds(k);
    assert TrimSlashes(k) == k;
    assert Clean(k) == k;
    SplitWord(".");
  }

  lemma {:induction false} AfterFirstV1(c: seq<string>, p: seq<string>)
    requires "v1" !in c && p != [] && p[0] == "v1"
    ensures AfterV1(c + p) == Some(p[1..])
  {
    if c == [] {
      assert c + p == p;
    } else {
      assert c[0] in c && (c + p)[1..] == c[1..] + p;
      AfterFirstV1(c[1..], p);
    }
  }

  lemma {:induction false} AfterEarlyV1(c: seq<string>, p: seq<string>)
    requires "v1" in c
    ensures AfterV1(c + p).Some? && |AfterV1(c + p).value| >= |p|
    ensures AfterV1(c + p).value[|AfterV1(c + p).value| - |p|..] == p
  {
    assert (c + p)[1..] == c[1..] + p;
    if c[0] != "v1" {
      AfterEarlyV1(c[1..], p);
    }
  }

  lemma SplitGoKey(prefix: string, parts: seq<string>)
    requires AllPlain(parts) && parts != []
    ensures SplitKey(GoJoin(prefix, parts)) == PrefixSegments(prefix) + parts
  {
    GoJoinSegments(prefix, parts);
    var c := PrefixSegments(prefix);
    CleanIsCanonical(Split(NormalizePrefix(prefix)));
    SplitNoSlash(NormalizePrefix(prefix));
    CleanNoSlash(Split(NormalizePrefix(prefix)));
    CanonicalAppend(c, parts);
    assert (c + parts)[|c + parts| - 1] in parts;
    SplitBuiltKey(c + parts);
  }

  lemma ClassOfParts(id: KeyId)
    ensures ClassifyParts(Parts(id)[1..]) == ClassOf(id) && Parts(id)[0] == "v1"
  {
    var p := Parts(id);
    assert p[1..][0] == p[1] && |p[1..]| == |p| - 1 && p[1..][1] == p[2];
  }

  /** The classifier recovers the kind of every object when the prefix has no "v1" segment. */
  lemma ClassifierRecoversKind(prefix: string, id: KeyId)
    requires PlainId(id) && "v1" !in PrefixSegments(prefix)
    ensures ClassifyKey(GoKey(prefix, id)) == ClassOf(id)
  {
    assert SplitKey(GoKey(prefix, id)) == PrefixSegments(prefix) + Parts(id) by {
      PartsPlain(id);
      SplitGoKey(prefix, Parts(id));
    }
    ClassOfParts(id);
    AfterFirstV1(PrefixSegments(prefix), Parts(id));
  }

  /** For open requests, and for the scan that looks for them, that condition is exact. */
  lemma OpenClassifiedIff(prefix: string, sid: string)
    requires NoSlash(sid)
    ensures ClassifyKey(GoKey(prefix, OpenKey(sid))) == ClassOpen <==> "v1" !in PrefixSegments(prefix)
  {
    OpenPartsClassifiedIff(prefix, sid + ".json");
    PartsPlain(OpenKey(sid));
  }

  lemma OpenPartsClassifiedIff(prefix: string, name: string)
    requires Plain(name)
    ensures ClassifyKey(GoJoin(prefix, ["v1", "open", name])) == ClassOpen <==> "v1" !in PrefixSegments(prefix)
  {
    var p := ["v1", "open", name];
    var c := PrefixSegments(prefix);
    SplitGoKey(prefix, p);
    if "v1" in c {
      AfterEarlyV1(c, p);
    } else {
      AfterFirstV1(c, p);
    }
  }

  lemma TrimOneSlash(s: string)
    ensures TrimSuffix(s + "/", "/") == s
  {
    assert (s + "/")[|s|..] == "/";
  }

  lemma OpenScanKey(prefix: string, name: string)
    requires Plain(name)
    ensures GoJoin(prefix, ["v1", "open"]) + "/" + name == GoJoin(prefix, ["v1", "open", name])
  {
    GoJoinSegments(prefix, ["v1", "open"]);
    GoJoinSegments(prefix, ["v1", "open", name]);
    var c := PrefixSegments(prefix) + ["v1", "open"];
    JoinAppend(c, [name]);
    assert c + [name] == PrefixSegments(prefix) + ["v1", "open", name];
  }

  lemma OpenScanClassifiedIff(prefix: string)
    ensures ClassifyListPrefix(GoOpenPrefix(prefix)) <==> "v1" !in PrefixSegments(prefix)
  {
    var open := GoJoin(prefix, ["v1", "open"]);
    var name := "placeholder.json";
    assert Plain(name);
    TrimOneSlash(open);
    OpenScanKey(prefix, name);
    assert open + "/placeholder.json" == open + "/" + name;
    OpenPartsClassifiedIff(prefix, name);
  }
}
