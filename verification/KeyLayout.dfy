/**
 The object keys of the mailbox: the Go builders (prefix normalisation and `path.Join`), the Kotlin
 builders (trim and join), the sequence-number parser and the metrics classifier.
 */
module KeyLayout {
  import opened Text

  // ---------------------------------------------------------------- path cleaning

  /** One segment of a relative path processed: skip "" and ".", let ".." undo the segment before it. */
  function PushSegment(out: seq<string>, s: string): seq<string> {
    if s == "" || s == "." then out
    else if s == ".." && out != [] && out[|out| - 1] != ".." then out[..|out| - 1]
    else out + [s]
  }

  function CleanSegments(segs: seq<string>): seq<string> {
    if segs == [] then []
    else PushSegment(CleanSegments(segs[..|segs| - 1]), segs[|segs| - 1])
  }

  /** `path.Clean` on a path that does not start with a slash. */
  function Clean(p: string): string {
    var out := CleanSegments(Split(p));
    if out == [] then "." else Join(out)
  }

  function DropLeadingEmpty(elems: seq<string>): seq<string> {
    if elems != [] && elems[0] == "" then DropLeadingEmpty(elems[1..]) else elems
  }

  /** `path.Join` on elements of which the first non-empty one does not start with a slash. */
  function PathJoin(elems: seq<string>): string {
    var rest := DropLeadingEmpty(elems);
    if rest == [] then "" else Clean(Join(rest))
  }

  /** A segment that stands for itself in every path. */
  predicate Plain(s: string) { NoSlash(s) && s != "" && s != "." && s != ".." }

  predicate AllPlain(segs: seq<string>) { forall s :: s in segs ==> Plain(s) }

  lemma {:induction false} CleanAppend(a: seq<string>, b: seq<string>)
    requires AllPlain(b)
    ensures CleanSegments(a + b) == CleanSegments(a) + b
  {
    if b == [] {
      assert a + b == a;
    } else {
      var n := |b| - 1;
      assert (a + b)[..|a + b| - 1] == a + b[..n];
      CleanAppend(a, b[..n]);
      assert (a + b)[|a + b| - 1] == b[n] && Plain(b[n]);
      assert CleanSegments(a) + b[..n] + [b[n]] == CleanSegments(a) + b;
    }
  }

  lemma {:induction false} CleanNoSlash(segs: seq<string>)
    requires forall s :: s in segs ==> NoSlash(s)
    ensures forall s :: s in CleanSegments(segs) ==> NoSlash(s)
  {
    if segs != [] { CleanNoSlash(segs[..|segs| - 1]); }
  }

  // ---------------------------------------------------------------- the keys

  datatype KeyId =
    | OpenKey(sid: string)
    | OpenResultKey(sid: string)
    | DataKey(dir: string, sid: string, seqNo: nat)
    | AckKey(dir: string, sid: string)
    | CloseKey(side: string, sid: string)
    | HeartbeatKey(side: string, sid: string)

  /** Zero-padded to twenty digits. */
  function FormatSeq(n: nat): string { Padded(n, 20) }

  function Parts(id: KeyId): seq<string> {
    match id
    case OpenKey(sid) => ["v1", "open", sid + ".json"]
    case OpenResultKey(sid) => ["v1", "open-result", sid + ".json"]
    case DataKey(dir, sid, n) => ["v1", "data", dir, sid, FormatSeq(n) + ".bin"]
    case AckKey(dir, sid) => ["v1", "ack", dir, sid + ".json"]
    case CloseKey(side, sid) => ["v1", "close", side, sid + ".json"]
    case HeartbeatKey(side, sid) => ["v1", "heartbeat", side, sid + ".json"]
  }

  function NormalizePrefix(prefix: string): string {
    var t := TrimSlashes(prefix);
    if t == "" then "s3s5" else t
  }

  function GoJoin(prefix: string, parts: seq<string>): string {
    PathJoin([NormalizePrefix(prefix)] + parts)
  }

  function GoKey(prefix: string, id: KeyId): string { GoJoin(prefix, Parts(id)) }

  function GoOpenPrefix(prefix: string): string { GoJoin(prefix, ["v1", "open"]) + "/" }

  function TrimAll(parts: seq<string>): seq<string> {
    if parts == [] then []
    else
      var t := TrimSlashes(parts[0]);
      (if t == "" then [] else [t]) + TrimAll(parts[1..])
  }

  function KotlinJoin(prefix: string, parts: seq<string>): string {
    Join(TrimAll([NormalizePrefix(prefix)] + parts))
  }

  function KotlinKey(prefix: string, id: KeyId): string { KotlinJoin(prefix, Parts(id)) }

  /** Every segment a key needs is a single plain path segment; an id that only occurs before ".json" may be empty. */
  predicate PlainId(id: KeyId) {
    match id
    case OpenKey(sid) => NoSlash(sid)
    case OpenResultKey(sid) => NoSlash(sid)
    case DataKey(dir, sid, _) => Plain(dir) && Plain(sid)
    case AckKey(dir, sid) => Plain(dir) && NoSlash(sid)
    case CloseKey(side, sid) => Plain(side) && NoSlash(sid)
    case HeartbeatKey(side, sid) => Plain(side) && NoSlash(sid)
  }

  /** The cleaned segments of the configured prefix. */
  function PrefixSegments(prefix: string): seq<string> {
    CleanSegments(Split(NormalizePrefix(prefix)))
  }

  lemma Suffixed(sid: string, suffix: string)
    requires NoSlash(sid) && (suffix == ".json" || suffix == ".bin")
    ensures Plain(sid + suffix)
    ensures TrimSuffix(sid + suffix, suffix) == sid
  {
    assert (sid + suffix)[|sid|..] == suffix;
    assert forall c :: c in sid + suffix ==> c in sid || c in suffix;
  }

  lemma PartsPlain(id: KeyId)
    requires PlainId(id)
    ensures AllPlain(Parts(id))
  {
    match id {
      case DataKey(_, _, n) =>
        PaddedChars(n, 20);
        Suffixed(FormatSeq(n), ".bin");
      case OpenKey(sid) => Suffixed(sid, ".json");
      case OpenResultKey(sid) => Suffixed(sid, ".json");
      case AckKey(_, sid) => Suffixed(sid, ".json");
      case CloseKey(_, sid) => Suffixed(sid, ".json");
      case HeartbeatKey(_, sid) => Suffixed(sid, ".json");
    }
  }

  // ---------------------------------------------------------------- what the builders produce

  /** A Go key is the cleaned prefix followed by its parts. */
  lemma GoJoinSegments(prefix: string, parts: seq<string>)
    requires AllPlain(parts) && parts != []
    ensures GoJoin(prefix, parts) == Join(PrefixSegments(prefix) + parts)
    ensures Split(GoJoin(prefix, parts)) == PrefixSegments(prefix) + parts
  {
    var norm := NormalizePrefix(prefix);
    assert DropLeadingEmpty([norm] + parts) == [norm] + parts;
    JoinAppend([norm], parts);
    SplitAt(norm, Join(parts));
    SplitJoin(parts);
    CleanAppend(Split(norm), parts);
    SplitNoSlash(norm);
    CleanNoSlash(Split(norm));
    SplitJoin(PrefixSegments(prefix) + parts);
  }

  lemma {:induction false} TrimAllPlain(parts: seq<string>)
    requires AllPlain(parts)
    ensures TrimAll(parts) == parts
  {
    if parts != [] {
      var p := parts[0];
      assert Plain(p) && p[0] in p && p[|p| - 1] in p;
      TrimAllPlain(parts[1..]);
    }
  }

  /** A Kotlin key is the trimmed prefix, not cleaned, followed by its parts. */
  lemma KotlinJoinSegments(prefix: string, parts: seq<string>)
    requires AllPlain(parts) && parts != []
    ensures KotlinJoin(prefix, parts) == Join(Split(NormalizePrefix(prefix)) + parts)
    ensures Split(KotlinJoin(prefix, parts)) == Split(NormalizePrefix(prefix)) + parts
  {
    var norm := NormalizePrefix(prefix);
    TrimSlashesEnds(prefix);
    assert TrimSlashes(norm) == norm;
    TrimAllPlain(parts);
    assert ([norm] + parts)[1..] == parts;
    JoinAppend([norm], parts);
    JoinSplit(norm);
    JoinAppend(Split(norm), parts);
    SplitNoSlash(norm);
    SplitJoin(Split(norm) + parts);
  }

  // ---------------------------------------------------------------- injectivity

  lemma CancelSuffix(a: string, b: string, suffix: string)
    requires a + suffix == b + suffix
    ensures a == b
  {
    assert (a + suffix)[..|a|] == a && (b + suffix)[..|b|] == b;
  }

  lemma PaddedInjective(a: nat, b: nat)
    requires FormatSeq(a) == FormatSeq(b)
    ensures a == b
  {
    PaddedValue(a, 20);
    PaddedValue(b, 20);
  }

  lemma PartsInjective(a: KeyId, b: KeyId)
    requires Parts(a) == Parts(b)
    ensures a == b
  {
    var p, q := Parts(a), Parts(b);
    var i := |p| - 1;
    assert p[1] == q[1] && p[2] == q[2] && p[i] == q[i];
    match a {
      case DataKey(_, sid, n) =>
        assert p[3] == q[3];
        CancelSuffix(FormatSeq(n), FormatSeq(b.seqNo), ".bin");
        PaddedInjective(n, b.seqNo);
      case _ =>
        assert p[i] == a.sid + ".json" && q[i] == b.sid + ".json";
        CancelSuffix(a.sid, b.sid, ".json");
    }
  }

  /** Under one prefix, whatever it is, two different objects never share a key. */
  lemma KeysInjective(prefix: string, a: KeyId, b: KeyId)
    requires PlainId(a) && PlainId(b) && GoKey(prefix, a) == GoKey(prefix, b)
    ensures a == b
  {
    PartsPlain(a);
    PartsPlain(b);
    GoJoinSegments(prefix, Parts(a));
    GoJoinSegments(prefix, Parts(b));
    var c := PrefixSegments(prefix);
    assert (c + Parts(a))[|c|..] == Parts(a) && (c + Parts(b))[|c|..] == Parts(b);
    PartsInjective(a, b);
  }

  /** An ACK key is its direction and its id, between fixed texts, and cleaned. */
  lemma AckKeyText(prefix: string, dir: string, sid: string)
    ensures GoKey(prefix, AckKey(dir, sid)) ==
            Clean(Join([NormalizePrefix(prefix), "v1", "ack"]) + "/" + (dir + "/" + (sid + ".json")))
  {
    var front, tail := [NormalizePrefix(prefix), "v1", "ack"], [dir, sid + ".json"];
    assert front + tail == [front[0]] + Parts(AckKey(dir, sid));
    JoinAppend(front, tail);
    assert tail[1..] == [sid + ".json"];
  }

  /** Plain segments are needed: with a slash, what ends the direction and what starts the id is lost. */
  lemma SlashedIdsCollide(prefix: string, a: string, b: string, c: string)
    ensures GoKey(prefix, AckKey(a + "/" + b, c)) == GoKey(prefix, AckKey(a, b + "/" + c))
  {
    AckKeyText(prefix, a + "/" + b, c);
    AckKeyText(prefix, a, b + "/" + c);
    var front := Join([NormalizePrefix(prefix), "v1", "ack"]) + "/";
    assert a + "/" + b + "/" + (c + ".json") == a + "/" + (b + "/" + c + ".json");
  }

  // ---------------------------------------------------------------- the Kotlin builders

  /** A prefix that path cleaning leaves alone: no empty or "." segment, and ".." only at the start. */
  predicate Canonical(segs: seq<string>) {
    forall i :: 0 <= i < |segs| ==>
      segs[i] != "" && segs[i] != "." && (segs[i] == ".." ==> i == 0 || segs[i - 1] == "..")
  }

  lemma {:induction false} CleanShortens(segs: seq<string>)
    ensures |CleanSegments(segs)| <= |segs|
  {
    if segs != [] { CleanShortens(segs[..|segs| - 1]); }
  }

  lemma CanonicalFront(segs: seq<string>)
    requires segs != []
    ensures var n := |segs| - 1;
            Canonical(segs) <==>
            && Canonical(segs[..n]) && segs[n] != "" && segs[n] != "."
            && (segs[n] == ".." ==> n == 0 || segs[n - 1] == "..")
  {
    var n := |segs| - 1;
    assert forall i :: 0 <= i < n ==> segs[..n][i] == segs[i];
  }

  lemma {:induction false} CleanFixed(segs: seq<string>)
    ensures CleanSegments(segs) == segs <==> Canonical(segs)
  {
    if segs != [] {
      var n := |segs| - 1;
      CleanFixed(segs[..n]);
      CanonicalFront(segs);
      CleanShortens(segs[..n]);
      var out := CleanSegments(segs[..n]);
      assert segs == segs[..n] + [segs[n]];
      if CleanSegments(segs) == segs {
        assert PushSegment(out, segs[n]) == out + [segs[n]];
        assert out == segs[..n];
      }
    }
  }

  /** The Kotlin and the Go client agree on every key if and only if the trimmed prefix is already clean. */
  lemma KotlinAgreesIff(prefix: string, id: KeyId)
    requires PlainId(id)
    ensures KotlinKey(prefix, id) == GoKey(prefix, id) <==> Canonical(Split(NormalizePrefix(prefix)))
  {
    PartsPlain(id);
    var p := Parts(id);
    var segs := Split(NormalizePrefix(prefix));
    GoJoinSegments(prefix, p);
    KotlinJoinSegments(prefix, p);
    CleanFixed(segs);
    if KotlinKey(prefix, id) == GoKey(prefix, id) {
      assert segs + p == CleanSegments(segs) + p;
      assert |segs| == |CleanSegments(segs)|;
      assert (segs + p)[..|segs|] == segs && (CleanSegments(segs) + p)[..|segs|] == CleanSegments(segs);
    }
  }

  /** Inside the Kotlin client, too, different objects have different keys. */
  lemma KotlinKeysInjective(prefix: string, a: KeyId, b: KeyId)
    requires PlainId(a) && PlainId(b) && KotlinKey(prefix, a) == KotlinKey(prefix, b)
    ensures a == b
  {
    PartsPlain(a);
    PartsPlain(b);
    KotlinJoinSegments(prefix, Parts(a));
    KotlinJoinSegments(prefix, Parts(b));
    var c := Split(NormalizePrefix(prefix));
    assert (c + Parts(a))[|c|..] == Parts(a) && (c + Parts(b))[|c|..] == Parts(b);
    PartsInjective(a, b);
  }
}
