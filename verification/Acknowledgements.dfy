/** Keys in the shared checkpoint store: one per task, and one per acknowledged suspension. */
module StoreKeys {
  import opened Options

  /** The ASCII characters that Kotlin's `isWhitespace` accepts. */
  predicate IsWhitespace(c: char) {
    c == ' ' || '\t' <= c <= '\r' || (28 as char) <= c <= (31 as char)
  }

  function TrimStart(s: string): string {
    if s != [] && IsWhitespace(s[0]) then TrimStart(s[1..]) else s
  }

  function TrimEnd(s: string, cut: char -> bool): string {
    if s != [] && cut(s[|s| - 1]) then TrimEnd(s[..|s| - 1], cut) else s
  }

  /** Trimmed on both sides, then without trailing slashes. */
  function NormalizeBaseUrl(baseUrl: string): string {
    TrimEnd(TrimEnd(TrimStart(baseUrl), IsWhitespace), c => c == '/')
  }

  function CheckpointKey(namespace: Option<string>, baseUrl: string, taskId: string): string {
    (if namespace.Some? then namespace.value else "") + "|" + (NormalizeBaseUrl(baseUrl) + "|" + taskId)
  }

  function AckKey(namespace: Option<string>, baseUrl: string, taskId: string, suspendId: string): string {
    CheckpointKey(namespace, NormalizeBaseUrl(baseUrl), taskId + "|" + ("suspend-ack" + "|" + suspendId))
  }

  predicate NoBar(s: string) {
    '|' !in s
  }

  /** Where a client keeps its keys. */
  datatype Space = Space(namespace: Option<string>, baseUrl: string)

  predicate Plain(space: Space) {
    (space.namespace.Some? ==> NoBar(space.namespace.value)) && NoBar(space.baseUrl)
  }

  lemma {:induction false} TrimStartNoBar(s: string)
    requires NoBar(s)
    ensures NoBar(TrimStart(s))
  {
    if s != [] && IsWhitespace(s[0]) { TrimStartNoBar(s[1..]); }
  }

  lemma {:induction false} TrimEndNoBar(s: string, cut: char -> bool)
    requires NoBar(s)
    ensures NoBar(TrimEnd(s, cut))
  {
    if s != [] && cut(s[|s| - 1]) { TrimEndNoBar(s[..|s| - 1], cut); }
  }

  lemma {:induction false} NormalizeNoBar(baseUrl: string)
    requires NoBar(baseUrl)
    ensures NoBar(NormalizeBaseUrl(baseUrl))
  {
    TrimStartNoBar(baseUrl);
    TrimEndNoBar(TrimStart(baseUrl), IsWhitespace);
    TrimEndNoBar(TrimEnd(TrimStart(baseUrl), IsWhitespace), c => c == '/');
  }

  /** The first bar splits a key in only one way. */
  lemma {:induction false} FirstBar(a: string, x: string, b: string, y: string)
    requires NoBar(a) && NoBar(b) && a + "|" + x == b + "|" + y
    ensures a == b && x == y
  {
    var k := a + "|" + x;
    assert k[|a|] == '|' && k[|b|] == '|';
    assert forall i :: 0 <= i < |a| ==> k[i] == a[i];
    assert forall i :: 0 <= i < |b| ==> k[i] == b[i];
    assert k[..|a|] == a && k[..|b|] == b && k[|a| + 1..] == x && k[|b| + 1..] == y;
  }

  /** Two keys of plain spaces agree only when the namespaces and what follows the base URL agree. */
  lemma {:induction false} KeySplits(n1: Option<string>, b1: string, t1: string, n2: Option<string>, b2: string, t2: string)
    requires Plain(Space(n1, b1)) && Plain(Space(n2, b2))
    requires CheckpointKey(n1, b1, t1) == CheckpointKey(n2, b2, t2)
    ensures t1 == t2
  {
    NormalizeNoBar(b1);
    NormalizeNoBar(b2);
    var p1, p2 := if n1.Some? then n1.value else "", if n2.Some? then n2.value else "";
    FirstBar(p1, NormalizeBaseUrl(b1) + "|" + t1, p2, NormalizeBaseUrl(b2) + "|" + t2);
    FirstBar(NormalizeBaseUrl(b1), t1, NormalizeBaseUrl(b2), t2);
  }

  /** Keys of tasks without a bar, in plain spaces, tell suspensions apart. */
  lemma {:induction false} AckKeysAreInjective(sp1: Space, t1: string, s1: string, sp2: Space, t2: string, s2: string)
    requires Plain(sp1) && Plain(sp2) && NoBar(t1) && NoBar(t2)
    requires AckKey(sp1.namespace, sp1.baseUrl, t1, s1) == AckKey(sp2.namespace, sp2.baseUrl, t2, s2)
    ensures t1 == t2 && s1 == s2
  {
    NormalizeNoBar(sp1.baseUrl);
    NormalizeNoBar(sp2.baseUrl);
    var r1, r2 := "suspend-ack" + "|" + s1, "suspend-ack" + "|" + s2;
    KeySplits(sp1.namespace, NormalizeBaseUrl(sp1.baseUrl), t1 + "|" + r1, sp2.namespace, NormalizeBaseUrl(sp2.baseUrl), t2 + "|" + r2);
    FirstBar(t1, r1, t2, r2);
    FirstBar("suspend-ack", s1, "suspend-ack", s2);
  }

  /** No acknowledgement is ever stored under the checkpoint key of a task without a bar. */
  lemma {:induction false} AckKeyIsNoCheckpointKey(sp1: Space, t1: string, s1: string, sp2: Space, t2: string)
    requires Plain(sp1) && Plain(sp2) && NoBar(t2)
    ensures AckKey(sp1.namespace, sp1.baseUrl, t1, s1) != CheckpointKey(sp2.namespace, sp2.baseUrl, t2)
  {
    NormalizeNoBar(sp1.baseUrl);
    var t := t1 + "|" + ("suspend-ack" + "|" + s1);
    assert t[|t1|] == '|';
    if AckKey(sp1.namespace, sp1.baseUrl, t1, s1) == CheckpointKey(sp2.namespace, sp2.baseUrl, t2) {
      KeySplits(sp1.namespace, NormalizeBaseUrl(sp1.baseUrl), t, sp2.namespace, sp2.baseUrl, t2);
    }
  }

  // Keys of one client, whatever its namespace and base URL

  function AckTail(suspendId: string): string {
    "|suspend-ack|" + suspendId
  }

  /** What follows the namespace and the base URL. */
  lemma {:induction false} AckKeyEnds(space: Space, taskId: string, suspendId: string)
    ensures AckKey(space.namespace, space.baseUrl, taskId, suspendId)
         == CheckpointKey(space.namespace, NormalizeBaseUrl(space.baseUrl), "") + (taskId + AckTail(suspendId))
  {
    assert "|" + ("suspend-ack" + "|" + suspendId) == AckTail(suspendId);
    assert taskId + "|" + ("suspend-ack" + "|" + suspendId) == taskId + AckTail(suspendId);
    hide NormalizeBaseUrl;
  }

  lemma {:induction false} SamePrefix(p: string, x: string, y: string)
    ensures p + x == p + y <==> x == y
  {
    assert (p + x)[|p|..] == x && (p + y)[|p|..] == y;
  }

  /** Within one client no namespace or base URL can make the keys of two suspensions meet. */
  lemma {:induction false} OwnAckKeysAreInjective(space: Space, t1: string, s1: string, t2: string, s2: string)
    requires NoBar(t1) && NoBar(t2)
    requires AckKey(space.namespace, space.baseUrl, t1, s1) == AckKey(space.namespace, space.baseUrl, t2, s2)
    ensures t1 == t2 && s1 == s2
  {
    hide AckKey, CheckpointKey;
    AckKeyEnds(space, t1, s1);
    AckKeyEnds(space, t2, s2);
    SamePrefix(CheckpointKey(space.namespace, NormalizeBaseUrl(space.baseUrl), ""), t1 + AckTail(s1), t2 + AckTail(s2));
    assert t1 + AckTail(s1) == t1 + "|" + ("suspend-ack|" + s1) && t2 + AckTail(s2) == t2 + "|" + ("suspend-ack|" + s2);
    FirstBar(t1, "suspend-ack|" + s1, t2, "suspend-ack|" + s2);
    SamePrefix("suspend-ack|", s1, s2);
  }

  /**
   * Exactly which task ids can share a key within one client: one of them, followed by the marker,
   * begins the other followed by the marker.
   */
  lemma {:induction false} AckKeysCollideIff(space: Space, t1: string, t2: string)
    ensures (exists s1, s2 :: AckKey(space.namespace, space.baseUrl, t1, s1) == AckKey(space.namespace, space.baseUrl, t2, s2))
       <==> t1 + "|suspend-ack|" <= t2 + "|suspend-ack|" || t2 + "|suspend-ack|" <= t1 + "|suspend-ack|"
  {
    hide AckKey, CheckpointKey;
    var a, b := t1 + "|suspend-ack|", t2 + "|suspend-ack|";
    forall s1, s2
      ensures AckKey(space.namespace, space.baseUrl, t1, s1) == AckKey(space.namespace, space.baseUrl, t2, s2) <==> a + s1 == b + s2
    {
      AckKeyEnds(space, t1, s1);
      AckKeyEnds(space, t2, s2);
      SamePrefix(CheckpointKey(space.namespace, NormalizeBaseUrl(space.baseUrl), ""), t1 + AckTail(s1), t2 + AckTail(s2));
      assert t1 + AckTail(s1) == a + s1 && t2 + AckTail(s2) == b + s2;
    }
    if a <= b {
      assert a + b[|a|..] == b + "";
    } else if b <= a {
      assert b + a[|b|..] == a + "";
    } else {
      forall s1, s2 ensures a + s1 != b + s2 {
        NoCommonEnd(a, s1, b, s2);
      }
    }
  }

  lemma {:induction false} NoCommonEnd(a: string, x: string, b: string, y: string)
    requires !(a <= b) && !(b <= a)
    ensures a + x != b + y
  {
    var n := if |a| <= |b| then |a| else |b|;
    assert (a + x)[..n] == a[..n] && (b + y)[..n] == b[..n];
    assert a[..|a|] == a && b[..|b|] == b;
  }

  // What the keys look like

  predicate IsBlank(s: string) {
    forall i :: 0 <= i < |s| ==> s[i] as int in {9, 10, 11, 12, 13, 28, 29, 30, 31, 32}
  }

  predicate IsSlashes(s: string) {
    forall i :: 0 <= i < |s| ==> s[i] == '/'
  }

  /** A base URL with no white space around it and no slash at its end. */
  predicate IsNormal(url: string) {
    url != "" && !IsBlank(url[..1]) && !IsBlank(url[|url| - 1..]) && url[|url| - 1] != '/'
  }

  lemma {:induction false} WhitespaceIs(c: char)
    ensures IsWhitespace(c) <==> IsBlank([c])
  {
    assert [c][0] == c;
  }

  lemma {:induction false} TrimsBefore(before: string, s: string)
    requires IsBlank(before) && (s == "" || !IsWhitespace(s[0]))
    ensures TrimStart(before + s) == s
  {
    hide IsWhitespace, IsBlank;
    if before == "" {
      assert before + s == s;
    } else {
      WhitespaceIs(before[0]);
      BlankParts(before);
      assert (before + s)[1..] == before[1..] + s;
      TrimsBefore(before[1..], s);
    }
  }

  lemma {:induction false} BlankParts(s: string)
    requires s != "" && IsBlank(s)
    ensures IsBlank([s[0]]) && IsBlank(s[1..]) && IsBlank(s[..|s| - 1]) && IsBlank([s[|s| - 1]])
  {
  }

  lemma {:induction false} TrimsAfter(s: string, after: string, cut: char -> bool)
    requires (forall i :: 0 <= i < |after| ==> cut(after[i])) && (s == "" || !cut(s[|s| - 1]))
    ensures TrimEnd(s + after, cut) == s
  {
    if after == "" {
      assert s + after == s;
    } else {
      assert (s + after)[..|s + after| - 1] == s + after[..|after| - 1];
      TrimsAfter(s, after[..|after| - 1], cut);
    }
  }

  /** White space around a base URL and slashes at its end make no difference. */
  lemma {:induction false} NormalizeTrims(before: string, url: string, slashes: string, after: string)
    requires IsBlank(before) && IsNormal(url) && IsSlashes(slashes) && IsBlank(after)
    ensures NormalizeBaseUrl(before + url + slashes + after) == url
  {
    var core := url + slashes;
    assert before + url + slashes + after == before + (core + after);
    WhitespaceIs(url[0]);
    assert url[..1] == [url[0]] && url[|url| - 1..] == [url[|url| - 1]];
    assert (core + after)[0] == url[0];
    TrimsBefore(before, core + after);
    var last := core[|core| - 1];
    assert last == if slashes == "" then url[|url| - 1] else '/';
    WhitespaceIs(last);
    forall i | 0 <= i < |after| ensures IsWhitespace(after[i]) { WhitespaceIs(after[i]); }
    TrimsAfter(core, after, IsWhitespace);
    TrimsAfter(url, slashes, c => c == '/');
  }

  function OrEmpty(namespace: Option<string>): string {
    match namespace case None => "" case Some(n) => n
  }

  /** The key of a task: namespace, normal base URL and task, with bars between; a missing namespace is empty. */
  lemma {:induction false} CheckpointKeyWrittenOut(namespace: Option<string>, url: string, taskId: string)
    requires IsNormal(url)
    ensures CheckpointKey(namespace, url, taskId) == OrEmpty(namespace) + "|" + url + "|" + taskId
  {
    IsNormalised(url);
    hide IsNormal, NormalizeBaseUrl, OrEmpty;
    var n := (if namespace.Some? then namespace.value else "") + "|";
    Regroup(n, url, "|", taskId);
    assert OrEmpty(namespace) + "|" == n by { NamespaceIs(namespace); }
    assert CheckpointKey(namespace, url, taskId) == n + (url + "|" + taskId);
  }

  /** The key of an acknowledgement: that of its task, the marker, and the suspension. */
  lemma {:induction false} AckKeyWrittenOut(namespace: Option<string>, url: string, taskId: string, suspendId: string)
    requires IsNormal(url)
    ensures AckKey(namespace, url, taskId, suspendId) == CheckpointKey(namespace, url, taskId) + "|suspend-ack|" + suspendId
  {
    IsNormalised(url);
    hide *;
    KeysUnfold(namespace, url, taskId, suspendId);
    var n := (if namespace.Some? then namespace.value else "") + "|";
    var tail := "suspend-ack" + "|" + suspendId;
    var front := n + url + "|" + taskId;
    Regroup(n, url, "|", taskId);
    Regroup(n, url, "|", taskId + "|" + tail);
    Regroup(n + url + "|", taskId, "|", tail);
    WithMarker(front, suspendId);
  }

  lemma {:induction false} IsNormalised(url: string)
    requires IsNormal(url)
    ensures NormalizeBaseUrl(url) == url
  {
    NormalizeTrims("", url, "", "");
    assert "" + url + "" + "" == url;
  }

  lemma {:induction false} NamespaceIs(namespace: Option<string>)
    ensures OrEmpty(namespace) == if namespace.Some? then namespace.value else ""
  {
  }

  lemma {:induction false} WithMarker(front: string, suspendId: string)
    ensures front + "|" + ("suspend-ack" + "|" + suspendId) == front + "|suspend-ack|" + suspendId
  {
    var a, b := front + "|" + ("suspend-ack" + "|" + suspendId), front + "|suspend-ack|" + suspendId;
    assert |a| == |b|;
    assert "|" + "suspend-ack" + "|" == "|suspend-ack|";
  }

  lemma {:induction false} Regroup(a: string, b: string, c: string, d: string)
    ensures a + (b + c + d) == a + b + c + d
  {
  }

  lemma {:induction false} KeysUnfold(namespace: Option<string>, url: string, taskId: string, suspendId: string)
    requires NormalizeBaseUrl(url) == url
    ensures var n := (if namespace.Some? then namespace.value else "") + "|";
      && CheckpointKey(namespace, url, taskId) == n + (url + "|" + taskId)
      && AckKey(namespace, url, taskId, suspendId) == n + (url + "|" + (taskId + "|" + ("suspend-ack" + "|" + suspendId)))
  {
    hide NormalizeBaseUrl;
  }

  // Normalising once more only takes characters off the end

  /** What `TrimEnd` leaves is a beginning, and the next character is one it cuts. */
  lemma {:induction false} TrimEndLeaves(s: string, cut: char -> bool)
    ensures TrimEnd(s, cut) <= s
    ensures |TrimEnd(s, cut)| < |s| ==> cut(s[|TrimEnd(s, cut)|])
  {
    if s != [] && cut(s[|s| - 1]) { TrimEndLeaves(s[..|s| - 1], cut); }
  }

  lemma {:induction false} TrimStartFirst(s: string)
    ensures TrimStart(s) != [] ==> !IsWhitespace(TrimStart(s)[0])
  {
    if s != [] && IsWhitespace(s[0]) { TrimStartFirst(s[1..]); }
  }

  /** The base URL normalised twice begins the one normalised once, and no bar follows it there. */
  lemma {:induction false} NormalizeAgain(baseUrl: string)
    ensures var once, twice := NormalizeBaseUrl(baseUrl), NormalizeBaseUrl(NormalizeBaseUrl(baseUrl));
      twice <= once && (|twice| < |once| ==> once[|twice|] != '|')
  {
    var start := TrimStart(baseUrl);
    var trimmed := TrimEnd(start, IsWhitespace);
    var once := NormalizeBaseUrl(baseUrl);
    TrimStartFirst(baseUrl);
    TrimEndLeaves(start, IsWhitespace);
    TrimEndLeaves(trimmed, c => c == '/');
    assert once == TrimEnd(trimmed, c => c == '/');
    assert once != [] ==> once[0] == start[0];
    assert TrimStart(once) == once;
    var again := TrimEnd(once, IsWhitespace);
    TrimEndLeaves(once, IsWhitespace);
    TrimEndLeaves(again, c => c == '/');
    assert NormalizeBaseUrl(once) == TrimEnd(again, c => c == '/');
  }

  /** Within one client no acknowledgement is stored under a task's checkpoint key, whatever the namespace and base URL. */
  lemma {:induction false} OwnAckKeyIsNoCheckpointKey(space: Space, t1: string, s1: string, t2: string)
    requires NoBar(t2)
    ensures AckKey(space.namespace, space.baseUrl, t1, s1) != CheckpointKey(space.namespace, space.baseUrl, t2)
  {
    var once, twice := NormalizeBaseUrl(space.baseUrl), NormalizeBaseUrl(NormalizeBaseUrl(space.baseUrl));
    NormalizeAgain(space.baseUrl);
    var front := (if space.namespace.Some? then space.namespace.value else "") + "|";
    var tail := t1 + "|" + ("suspend-ack" + "|" + s1);
    assert tail[|t1|] == '|';
    hide NormalizeBaseUrl;
    assert AckKey(space.namespace, space.baseUrl, t1, s1) == front + (twice + "|" + tail);
    assert CheckpointKey(space.namespace, space.baseUrl, t2) == front + (once + "|" + t2);
    SamePrefix(front, twice + "|" + tail, once + "|" + t2);
    BarAfterPrefix(twice, tail, once, t2);
  }

  lemma {:induction false} BarAfterPrefix(twice: string, tail: string, once: string, t: string)
    requires twice <= once && (|twice| < |once| ==> once[|twice|] != '|')
    requires '|' in tail && NoBar(t)
    ensures twice + "|" + tail != once + "|" + t
  {
    var a, b := twice + "|" + tail, once + "|" + t;
    assert a[|twice|] == '|';
    if |twice| < |once| {
      assert b[|twice|] == once[|twice|];
    } else {
      assert a[|twice| + 1..] == tail && b[|once| + 1..] == t;
    }
  }

  predicate IsAlphanumeric(c: char) {
    'a' <= c <= 'z' || 'A' <= c <= 'Z' || '0' <= c <= '9'
  }

  predicate IsTaskIdChar(c: char) {
    IsAlphanumeric(c) || c == '.' || c == '_' || c == '@' || c == '-'
  }

  predicate HasTwoDots(s: string) {
    |s| >= 2 && (s[..2] == ".." || HasTwoDots(s[1..]))
  }

  /** Accepted ids are ASCII, so their length in bytes is their length. */
  predicate IsValidTaskId(taskId: string) {
    && 1 <= |taskId| <= 255 && IsAlphanumeric(taskId[0])
    && (forall i :: 0 <= i < |taskId| ==> IsTaskIdChar(taskId[i]))
    && !HasTwoDots(taskId)
  }

  predicate IsCodeOfLetterOrDigit(code: int) { 48 <= code <= 57 || 65 <= code <= 90 || 97 <= code <= 122 }

  predicate DotsAt(s: string, i: nat)
    requires i + 1 < |s|
  {
    s[i] == '.' && s[i + 1] == '.'
  }

  /** The ids the client accepts: ASCII letters, digits and four marks, a letter or digit first, no two dots in a row. */
  lemma {:induction false} ValidTaskIdIff(taskId: string)
    ensures IsValidTaskId(taskId) <==>
      && 1 <= |taskId| <= 255 && IsCodeOfLetterOrDigit(taskId[0] as int)
      && (forall i :: 0 <= i < |taskId| ==> IsCodeOfLetterOrDigit(taskId[i] as int) || taskId[i] as int in {45, 46, 64, 95})
      && (forall i :: 0 <= i < |taskId| - 1 ==> !DotsAt(taskId, i))
  {
    TwoDotsIff(taskId);
    if taskId != "" { CharIs(taskId[0]); }
    forall i | 0 <= i < |taskId|
      ensures IsTaskIdChar(taskId[i]) <==> IsCodeOfLetterOrDigit(taskId[i] as int) || taskId[i] as int in {45, 46, 64, 95}
    {
      CharIs(taskId[i]);
    }
    hide HasTwoDots, DotsAt, IsTaskIdChar, IsAlphanumeric, IsCodeOfLetterOrDigit;
  }

  lemma {:induction false} CharIs(c: char)
    ensures IsAlphanumeric(c) <==> IsCodeOfLetterOrDigit(c as int)
    ensures IsTaskIdChar(c) <==> IsCodeOfLetterOrDigit(c as int) || c as int in {45, 46, 64, 95}
  {
    assert c as int as char == c;
  }

  lemma {:induction false} TwoDotsIff(s: string)
    ensures HasTwoDots(s) <==> exists i :: 0 <= i < |s| - 1 && DotsAt(s, i)
  {
    if |s| >= 2 {
      var rest := s[1..];
      TwoDotsIff(rest);
      assert s[..2] == ".." <==> DotsAt(s, 0);
      forall i | 0 <= i < |rest| - 1 ensures DotsAt(rest, i) <==> DotsAt(s, i + 1) {
      }
      if i :| 0 <= i < |s| - 1 && DotsAt(s, i) {
        if i > 0 { assert DotsAt(rest, i - 1); }
      }
      if i :| 0 <= i < |rest| - 1 && DotsAt(rest, i) { assert DotsAt(s, i + 1); }
    }
  }

  lemma {:induction false} ValidTaskIdHasNoBar(taskId: string)
    requires IsValidTaskId(taskId)
    ensures NoBar(taskId) && '/' !in taskId && NormalizeBaseUrl(taskId) == taskId
  {
    assert IsTaskIdChar(taskId[|taskId| - 1]);
  }
}

/** Which suspensions this client need not show again, kept beside the checkpoints. */
module Acknowledgements {
  import opened Options
  import opened CheckpointStore
  import opened StoreKeys

  /** The pairs whose keys this instance wrote or saw. */
  ghost function Pairs(known: map<string, set<string>>): iset<(string, string)> {
    iset t, s | t in known && s in known[t] :: (t, s)
  }

  function KnownOf(known: map<string, set<string>>, taskId: string): set<string> {
    if taskId in known then known[taskId] else {}
  }

  /** `computeIfAbsent(taskId).add(suspendId)`. */
  function Noted(known: map<string, set<string>>, taskId: string, suspendId: string): (r: map<string, set<string>>)
    ensures forall t, s :: (t, s) in Pairs(r) <==> (t, s) in Pairs(known) || (t, s) == (taskId, suspendId)
  {
    known[taskId := KnownOf(known, taskId) + {suspendId}]
  }

  /** Removes the id, and the task with its last id. */
  function Dropped(known: map<string, set<string>>, taskId: string, suspendId: string): (r: map<string, set<string>>)
    ensures forall t, s :: (t, s) in Pairs(r) <==> (t, s) in Pairs(known) && (t, s) != (taskId, suspendId)
  {
    var left := KnownOf(known, taskId) - {suspendId};
    assert forall s :: s in left <==> (taskId, s) in Pairs(known) && s != suspendId;
    if left == {} then
      assert forall s :: (taskId, s) in Pairs(known) ==> s == suspendId by {
        forall s | (taskId, s) in Pairs(known) ensures s == suspendId {
          assert s in left || s == suspendId;
        }
      }
      known - {taskId}
    else known[taskId := left]
  }

  class SuspensionAcknowledgementState {
    const store: InMemoryCheckpointStore<string>
    const space: Space
    var known: map<string, set<string>>

    constructor (store: InMemoryCheckpointStore<string>, space: Space)
      ensures this.store == store && this.space == space && known == map[]
    {
      this.store, this.space, known := store, space, map[];
    }

    function Key(taskId: string, suspendId: string): string {
      AckKey(space.namespace, space.baseUrl, taskId, suspendId)
    }

    /** The first half of `Remember`; another coroutine may clear the task before the second. */
    method SaveKey(taskId: string, suspendId: string, clientActionId: string)
      modifies store
      ensures store.values == old(store.values)[Key(taskId, suspendId) := clientActionId]
    {
      store.Save(Key(taskId, suspendId), clientActionId);
    }

    method NoteSuspension(taskId: string, suspendId: string)
      modifies this
      ensures known == Noted(old(known), taskId, suspendId)
    {
      known := Noted(known, taskId, suspendId);
    }

    method Remember(taskId: string, suspendId: string, clientActionId: string)
      modifies this, store
      ensures store.values == old(store.values)[Key(taskId, suspendId) := clientActionId]
      ensures known == Noted(old(known), taskId, suspendId)
    {
      SaveKey(taskId, suspendId, clientActionId);
      NoteSuspension(taskId, suspendId);
    }

    method IsAcknowledged(taskId: string, suspendId: string) returns (acknowledged: bool)
      modifies this
      ensures acknowledged <==> Key(taskId, suspendId) in store.values
      ensures known == if acknowledged then Noted(old(known), taskId, suspendId) else old(known)
    {
      var value := store.Load(Key(taskId, suspendId));
      acknowledged := value.Some?;
      if acknowledged { known := Noted(known, taskId, suspendId); }
    }

    method Clear(taskId: string, suspendId: string)
      modifies this, store
      ensures store.values == old(store.values) - {Key(taskId, suspendId)}
      ensures known == Dropped(old(known), taskId, suspendId)
    {
      store.Clear(Key(taskId, suspendId));
      if taskId in known { known := known[taskId := known[taskId] - {suspendId}]; }
      if KnownOf(known, taskId) == {} { known := known - {taskId}; }
    }

    /** Removes exactly the keys this instance wrote or saw for the task. */
    method ClearTask(taskId: string)
      modifies this, store
      ensures known == old(known) - {taskId}
      ensures store.values == old(store.values) - (set s | s in KnownOf(old(known), taskId) :: Key(taskId, s))
    {
      var suspendIds := KnownOf(known, taskId);
      known := known - {taskId};
      ghost var all := suspendIds;
      while suspendIds != {}
        invariant suspendIds <= all && known == old(known) - {taskId}
        invariant store.values == old(store.values) - (set s | s in all - suspendIds :: Key(taskId, s))
        decreases |suspendIds|
      {
        var s :| s in suspendIds;
        store.Clear(Key(taskId, s));
        suspendIds := suspendIds - {s};
      }
      assert all - suspendIds == all;
    }
  }

  datatype TaskEvent =
    | Suspended(taskId: string, suspendId: string)
    | ActionAccepted(taskId: string, suspendId: string, clientActionId: string)
    | Finished(taskId: string)
    | OtherEvent(taskId: string)

  /**
   * What happens around one observed flow: events from the transport, actions submitted meanwhile,
   * and checkpoints coming and going. An accepted or deduplicated submit is remembered in two
   * steps, between which anything else may happen; any other answer is `Refused`.
   */
  datatype Happening =
    | Upstream(event: TaskEvent)
    | SubmitSaved(task: string, suspension: string, action: string)
    | SubmitNoted(task: string, suspension: string)
    | Refused(task: string)
    | CheckpointSaved(task: string, eventId: string)
    | CheckpointCleared(task: string)

  function TaskOf(h: Happening): string {
    if h.Upstream? then h.event.taskId else h.task
  }

  /** The key of the suspension is saved. */
  predicate Remembers(h: Happening, taskId: string, suspendId: string) {
    match h
    case Upstream(ActionAccepted(t, s, _)) => t == taskId && s == suspendId
    case SubmitSaved(t, s, _) => t == taskId && s == suspendId
    case _ => false
  }

  predicate Ends(h: Happening) {
    h.Upstream? && h.event.Finished?
  }

  /** Acknowledged before the flow began, or saved by one of the first `n` happenings. */
  ghost predicate Acknowledged(before: map<string, string>, space: Space, hs: seq<Happening>, n: nat, taskId: string, suspendId: string)
    requires n <= |hs|
  {
    || AckKey(space.namespace, space.baseUrl, taskId, suspendId) in before
    || exists j :: 0 <= j < n && Remembers(hs[j], taskId, suspendId)
  }

  /** Every event in order, except the suspensions that are acknowledged when they arrive. */
  ghost function Shown(before: map<string, string>, space: Space, hs: seq<Happening>, n: nat): seq<TaskEvent>
    requires n <= |hs|
  {
    if n == 0 then []
    else
      Shown(before, space, hs, n - 1)
      + match hs[n - 1]
        case Upstream(Suspended(t, s)) => if Acknowledged(before, space, hs, n - 1, t, s) then [] else [hs[n - 1].event]
        case Upstream(event) => [event]
        case _ => []
  }

  /** The store says of every suspension what the history says. */
  ghost predicate Agrees(values: map<string, string>, before: map<string, string>, space: Space, hs: seq<Happening>, n: nat)
    requires n <= |hs|
  {
    forall t, s :: NoBar(t) ==>
      (AckKey(space.namespace, space.baseUrl, t, s) in values <==> Acknowledged(before, space, hs, n, t, s))
  }

  lemma {:induction false} AgreesAtFirst(before: map<string, string>, space: Space, hs: seq<Happening>)
    ensures Agrees(before, before, space, hs, 0)
  {
  }

  /** A remembered suspension is acknowledged from now on, and no other is affected. */
  lemma {:induction false} AgreesAfterRemember(values: map<string, string>, before: map<string, string>, space: Space, hs: seq<Happening>, n: nat,
                              taskId: string, suspendId: string, clientActionId: string)
    requires n < |hs| && NoBar(taskId) && Agrees(values, before, space, hs, n)
    requires forall t, s :: Remembers(hs[n], t, s) <==> t == taskId && s == suspendId
    ensures Agrees(values[AckKey(space.namespace, space.baseUrl, taskId, suspendId) := clientActionId], before, space, hs, n + 1)
  {
    hide AckKey;
    var key := AckKey(space.namespace, space.baseUrl, taskId, suspendId);
    forall t, s | NoBar(t)
      ensures AckKey(space.namespace, space.baseUrl, t, s) in values[key := clientActionId]
              <==> Acknowledged(before, space, hs, n + 1, t, s)
    {
      if AckKey(space.namespace, space.baseUrl, t, s) == key { OwnAckKeysAreInjective(space, t, s, taskId, suspendId); }
      assert Remembers(hs[n], t, s) <==> t == taskId && s == suspendId;
    }
  }

  /** Checkpoints live beside the acknowledgements and never touch them. */
  lemma {:induction false} AgreesAfterOther(values: map<string, string>, later: map<string, string>, before: map<string, string>, space: Space,
                           hs: seq<Happening>, n: nat, taskId: string)
    requires n < |hs| && NoBar(taskId) && Agrees(values, before, space, hs, n)
    requires forall t, s :: !Remembers(hs[n], t, s)
    requires forall key :: key != CheckpointKey(space.namespace, space.baseUrl, taskId) ==> (key in later <==> key in values)
    ensures Agrees(later, before, space, hs, n + 1)
  {
    hide AckKey, CheckpointKey;
    forall t, s | NoBar(t)
      ensures AckKey(space.namespace, space.baseUrl, t, s) in later <==> Acknowledged(before, space, hs, n + 1, t, s)
    {
      OwnAckKeyIsNoCheckpointKey(space, t, s, taskId);
      assert !Remembers(hs[n], t, s);
    }
  }

  /** The suspension is noted for the clean-up: with an accept, after a submit, or because its key was seen. */
  ghost predicate NotesAt(before: map<string, string>, space: Space, hs: seq<Happening>, j: nat, taskId: string, suspendId: string)
    requires j < |hs|
  {
    match hs[j]
    case Upstream(ActionAccepted(t, s, _)) => t == taskId && s == suspendId
    case Upstream(Suspended(t, s)) => t == taskId && s == suspendId && Acknowledged(before, space, hs, j, t, s)
    case SubmitNoted(t, s) => t == taskId && s == suspendId
    case _ => false
  }

  ghost predicate WasNoted(before: map<string, string>, knownBefore: map<string, set<string>>, space: Space, hs: seq<Happening>, n: nat,
                           taskId: string, suspendId: string)
    requires n <= |hs|
  {
    (taskId, suspendId) in Pairs(knownBefore) || exists j :: 0 <= j < n && NotesAt(before, space, hs, j, taskId, suspendId)
  }

  /** The instance knows exactly the suspensions that were noted. */
  ghost predicate KnowsNoted(known: map<string, set<string>>, before: map<string, string>, knownBefore: map<string, set<string>>,
                             space: Space, hs: seq<Happening>, n: nat)
    requires n <= |hs|
  {
    forall t, s :: (t, s) in Pairs(known) <==> WasNoted(before, knownBefore, space, hs, n, t, s)
  }

  lemma {:induction false} KnowsAtFirst(before: map<string, string>, knownBefore: map<string, set<string>>, space: Space, hs: seq<Happening>)
    ensures KnowsNoted(knownBefore, before, knownBefore, space, hs, 0)
  {
  }

  lemma {:induction false} KnowsOneMore(known: map<string, set<string>>, later: map<string, set<string>>, before: map<string, string>,
                       knownBefore: map<string, set<string>>, space: Space, hs: seq<Happening>, n: nat)
    requires n < |hs| && KnowsNoted(known, before, knownBefore, space, hs, n)
    requires forall t, s :: (t, s) in Pairs(later) <==> (t, s) in Pairs(known) || NotesAt(before, space, hs, n, t, s)
    ensures KnowsNoted(later, before, knownBefore, space, hs, n + 1)
  {
    hide NotesAt, Pairs;
    forall t, s ensures (t, s) in Pairs(later) <==> WasNoted(before, knownBefore, space, hs, n + 1, t, s) {
      assert WasNoted(before, knownBefore, space, hs, n + 1, t, s)
        <==> WasNoted(before, knownBefore, space, hs, n, t, s) || NotesAt(before, space, hs, n, t, s);
    }
  }

  /** After the clean-up of a task a key is left exactly if it was saved and, in that task, never noted. */
  ghost predicate LeftAfter(values: map<string, string>, before: map<string, string>, knownBefore: map<string, set<string>>, space: Space,
                            hs: seq<Happening>, n: nat, taskId: string)
    requires n <= |hs|
  {
    forall t, s :: NoBar(t) ==>
      (AckKey(space.namespace, space.baseUrl, t, s) in values
       <==> Acknowledged(before, space, hs, n, t, s) && !(t == taskId && WasNoted(before, knownBefore, space, hs, n, t, s)))
  }

  lemma {:induction false} ClearedTask(known: map<string, set<string>>, knownBefore: map<string, set<string>>, values: map<string, string>,
                      later: map<string, string>, before: map<string, string>, space: Space, hs: seq<Happening>, n: nat, taskId: string)
    requires n < |hs| && hs[n] == Upstream(Finished(taskId)) && NoBar(taskId)
    requires KnowsNoted(known, before, knownBefore, space, hs, n) && Agrees(values, before, space, hs, n)
    requires later == values - (set s | s in KnownOf(known, taskId) :: AckKey(space.namespace, space.baseUrl, taskId, s))
    ensures LeftAfter(later, before, knownBefore, space, hs, n + 1, taskId)
  {
    hide AckKey;
    assert forall t, s :: !Remembers(hs[n], t, s);
    assert forall t, s :: !NotesAt(before, space, hs, n, t, s);
    forall t, s | NoBar(t)
      ensures AckKey(space.namespace, space.baseUrl, t, s) in later
        <==> Acknowledged(before, space, hs, n + 1, t, s) && !(t == taskId && WasNoted(before, knownBefore, space, hs, n + 1, t, s))
    {
      assert Acknowledged(before, space, hs, n + 1, t, s) <==> Acknowledged(before, space, hs, n, t, s);
      assert WasNoted(before, knownBefore, space, hs, n + 1, t, s) <==> WasNoted(before, knownBefore, space, hs, n, t, s);
      assert (t, s) in Pairs(known) <==> WasNoted(before, knownBefore, space, hs, n, t, s);
      CleanUpRemoves(known, space, taskId, t, s);
    }
    hide Acknowledged, WasNoted, NotesAt, Remembers;
  }

  /** The clean-up of a task removes the key of a suspension exactly if it is one it knows for that task. */
  lemma {:induction false} CleanUpRemoves(known: map<string, set<string>>, space: Space, taskId: string, t: string, s: string)
    requires NoBar(taskId) && NoBar(t)
    ensures AckKey(space.namespace, space.baseUrl, t, s) in (set x | x in KnownOf(known, taskId) :: AckKey(space.namespace, space.baseUrl, taskId, x))
       <==> t == taskId && (t, s) in Pairs(known)
  {
    hide AckKey;
    var keys := set x | x in KnownOf(known, taskId) :: AckKey(space.namespace, space.baseUrl, taskId, x);
    if AckKey(space.namespace, space.baseUrl, t, s) in keys {
      var x :| x in KnownOf(known, taskId) && AckKey(space.namespace, space.baseUrl, taskId, x) == AckKey(space.namespace, space.baseUrl, t, s);
      OwnAckKeysAreInjective(space, taskId, x, t, s);
    }
  }

  /** When every saved submit has been noted too, nothing that came up is left of the task. */
  lemma {:induction false} NothingLeftBehind(values: map<string, string>, before: map<string, string>, knownBefore: map<string, set<string>>,
                            space: Space, hs: seq<Happening>, n: nat, taskId: string, suspendId: string)
    requires n <= |hs| && NoBar(taskId) && LeftAfter(values, before, knownBefore, space, hs, n, taskId)
    requires forall j :: 0 <= j < n && hs[j].SubmitSaved? && hs[j].task == taskId && hs[j].suspension == suspendId ==>
      SubmitNoted(taskId, suspendId) in hs[..n]
    requires exists j :: 0 <= j < n && (Remembers(hs[j], taskId, suspendId) || hs[j] == Upstream(Suspended(taskId, suspendId)))
    ensures AckKey(space.namespace, space.baseUrl, taskId, suspendId) !in values
  {
    hide AckKey;
    if i :| 0 <= i < n && Remembers(hs[i], taskId, suspendId) {
      if hs[i].Upstream? {
        assert NotesAt(before, space, hs, i, taskId, suspendId);
      } else {
        var x :| 0 <= x < n && hs[..n][x] == SubmitNoted(taskId, suspendId);
        assert NotesAt(before, space, hs, x, taskId, suspendId);
      }
    } else {
      var j :| 0 <= j < n && hs[j] == Upstream(Suspended(taskId, suspendId));
      assert Acknowledged(before, space, hs, n, taskId, suspendId) ==> NotesAt(before, space, hs, j, taskId, suspendId);
    }
  }

  /**
   * The flow shown to the app. A suspension that is acknowledged, before or by then, is held back;
   * everything else passes in order; the flow ends with the terminal event, after which a key of that
   * task is left exactly if it was saved but not noted yet.
   */
  method ObserveTaskEvents(acks: SuspensionAcknowledgementState, hs: seq<Happening>) returns (shown: seq<TaskEvent>, n: nat)
    requires forall i :: 0 <= i < |hs| ==> NoBar(TaskOf(hs[i]))
    modifies acks, acks.store
    ensures n <= |hs| && (forall i :: 0 <= i < n - 1 ==> !Ends(hs[i]))
    ensures n < |hs| ==> 0 < n && Ends(hs[n - 1])
    ensures shown == Shown(old(acks.store.values), acks.space, hs, n)
    ensures n > 0 && Ends(hs[n - 1]) ==>
      LeftAfter(acks.store.values, old(acks.store.values), old(acks.known), acks.space, hs, n, TaskOf(hs[n - 1]))
    ensures !(n > 0 && Ends(hs[n - 1])) ==> Agrees(acks.store.values, old(acks.store.values), acks.space, hs, n)
  {
    hide AckKey, CheckpointKey, Agrees, Noted, Acknowledged, KnowsNoted, LeftAfter, Pairs;
    ghost var before, knownBefore := acks.store.values, acks.known;
    AgreesAtFirst(before, acks.space, hs);
    KnowsAtFirst(before, knownBefore, acks.space, hs);
    shown, n := [], 0;
    while n < |hs|
      invariant n <= |hs| && forall i :: 0 <= i < n ==> !Ends(hs[i])
      invariant shown == Shown(before, acks.space, hs, n)
      invariant Agrees(acks.store.values, before, acks.space, hs, n)
      invariant KnowsNoted(acks.known, before, knownBefore, acks.space, hs, n)
    {
      ghost var values, known := acks.store.values, acks.known;
      match hs[n] {
        case Upstream(Suspended(t, s)) =>
          var acknowledged := acks.IsAcknowledged(t, s);
          AgreesOn(values, before, acks.space, hs, n, t, s);
          if !acknowledged { shown := shown + [hs[n].event]; }
          AgreesAfterOther(values, values, before, acks.space, hs, n, t);
        case Upstream(ActionAccepted(t, s, a)) =>
          acks.Remember(t, s, a);
          shown := shown + [hs[n].event];
          AgreesAfterRemember(values, before, acks.space, hs, n, t, s, a);
        case Upstream(Finished(t)) =>
          acks.ClearTask(t);
          shown := shown + [hs[n].event];
          ClearedTask(known, knownBefore, values, acks.store.values, before, acks.space, hs, n, t);
          n := n + 1;
          return;
        case Upstream(OtherEvent(t)) =>
          shown := shown + [hs[n].event];
          AgreesAfterOther(values, values, before, acks.space, hs, n, t);
        case SubmitSaved(t, s, a) =>
          acks.SaveKey(t, s, a);
          AgreesAfterRemember(values, before, acks.space, hs, n, t, s, a);
        case SubmitNoted(t, s) =>
          acks.NoteSuspension(t, s);
          AgreesAfterOther(values, values, before, acks.space, hs, n, t);
        case Refused(t) =>
          AgreesAfterOther(values, values, before, acks.space, hs, n, t);
        case CheckpointSaved(t, id) =>
          acks.store.Save(CheckpointKey(acks.space.namespace, acks.space.baseUrl, t), id);
          AgreesAfterOther(values, acks.store.values, before, acks.space, hs, n, t);
        case CheckpointCleared(t) =>
          acks.store.Clear(CheckpointKey(acks.space.namespace, acks.space.baseUrl, t));
          AgreesAfterOther(values, acks.store.values, before, acks.space, hs, n, t);
      }
      KnowsOneMore(known, acks.known, before, knownBefore, acks.space, hs, n);
      n := n + 1;
    }
  }

  lemma {:induction false} AgreesOn(values: map<string, string>, before: map<string, string>, space: Space, hs: seq<Happening>, n: nat, t: string, s: string)
    requires n <= |hs| && NoBar(t) && Agrees(values, before, space, hs, n)
    ensures AckKey(space.namespace, space.baseUrl, t, s) in values <==> Acknowledged(before, space, hs, n, t, s)
  {
  }

  /** Once a suspension is settled, no later event for it is shown. */
  lemma {:induction false} SettledIsNotShownAgain(before: map<string, string>, space: Space, hs: seq<Happening>, j: nat, n: nat, taskId: string, suspendId: string)
    requires j < n <= |hs| && Remembers(hs[j], taskId, suspendId)
    ensures Shown(before, space, hs, j) <= Shown(before, space, hs, n)
    ensures Suspended(taskId, suspendId) !in Shown(before, space, hs, n)[|Shown(before, space, hs, j)|..]
  {
    if n > j + 1 {
      SettledIsNotShownAgain(before, space, hs, j, n - 1, taskId, suspendId);
    }
  }
}
