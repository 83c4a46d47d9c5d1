/** The browser-side history of runs (src/lib/local-history.ts): a list of
    session summaries, capped at 50, and a list of full results, capped at 20,
    both newest first. The two `localStorage` entries become the fields of a
    `LocalStore`; reading and writing them as JSON is not modelled. */
module LocalHistory {
  import opened Wrappers
  import opened Types

  const MaxHistoryItems: nat := 50
  const MaxResultsItems: nat := 20

  /** What the history keeps of a run. */
  datatype LocalSession = LocalSession(
    id: string,
    topicName: string,
    urlCount: nat,
    status: Status,
    createdAt: string,
    notionPageUrl: Option<string>,
    progress: Option<Progress>)

  /** The full result of a run, kept for reading offline. */
  datatype LocalResult = LocalResult(
    sessionId: string,
    topicName: string,
    notionPageUrl: string,
    summary: SummaryResult,
    urls: seq<string>,
    transcripts: seq<TranscriptResult>,
    savedAt: string)

  function SessionKey(s: LocalSession): string { s.id }
  function ResultKey(r: LocalResult): string { r.sessionId }

  // ---------------------------------------------------------------------------
  // Keyed lists

  /** `findIndex` by key: the first index whose key is `k`, or -1. */
  function FindIndex<T>(xs: seq<T>, key: T -> string, k: string): (r: int)
    ensures -1 <= r < |xs|
    ensures r >= 0 ==> key(xs[r]) == k && forall j :: 0 <= j < r ==> key(xs[j]) != k
    ensures r == -1 <==> forall j :: 0 <= j < |xs| ==> key(xs[j]) != k
    decreases |xs|
  {
    if xs == [] then -1
    else if key(xs[0]) == k then 0
    else
      var i := FindIndex(xs[1..], key, k);
      assert forall j :: 1 <= j < |xs| ==> xs[j] == xs[1..][j - 1];
      if i == -1 then -1 else i + 1
  }

  /** `find` by key: the first element whose key is `k`. */
  function Find<T>(xs: seq<T>, key: T -> string, k: string): (r: Option<T>)
    ensures r.None? <==> forall j :: 0 <= j < |xs| ==> key(xs[j]) != k
    ensures r.Some? ==> r.value == xs[FindIndex(xs, key, k)]
  {
    var i := FindIndex(xs, key, k);
    if i == -1 then None else Some(xs[i])
  }

  /** The list with `x` written over the first element of the same key, or
      put in front when there is none. */
  function Upsert<T>(xs: seq<T>, key: T -> string, x: T): seq<T> {
    var i := FindIndex(xs, key, key(x));
    if i >= 0 then xs[i := x] else [x] + xs
  }

  /** `slice(0, n)`. */
  function Cap<T>(xs: seq<T>, n: nat): (r: seq<T>)
    ensures |r| <= n && |r| <= |xs| && r == xs[..|r|]
    ensures |xs| <= n ==> r == xs
  {
    if |xs| <= n then xs else xs[..n]
  }

  /** `filter` by key: every element whose key is not `k`, in order. */
  function RemoveKey<T(!new)>(xs: seq<T>, key: T -> string, k: string): (r: seq<T>)
    ensures |r| <= |xs|
    ensures forall j :: 0 <= j < |r| ==> key(r[j]) != k
    ensures forall y :: y in r <==> y in xs && key(y) != k
  {
    if xs == [] then []
    else
      var rest := RemoveKey(xs[1..], key, k);
      assert forall j :: 1 <= j < |xs| ==> xs[j] == xs[1..][j - 1];
      if key(xs[0]) == k then rest else [xs[0]] + rest
  }

  /** No two elements share a key. */
  predicate UniqueKeys<T>(xs: seq<T>, key: T -> string) {
    forall i, j :: 0 <= i < j < |xs| ==> key(xs[i]) != key(xs[j])
  }

  /** The keys, in order. */
  function Keys<T>(xs: seq<T>, key: T -> string): (r: seq<string>)
    ensures |r| == |xs| && forall j :: 0 <= j < |xs| ==> r[j] == key(xs[j])
  {
    seq(|xs|, j requires 0 <= j < |xs| => key(xs[j]))
  }

  // ---------------------------------------------------------------------------
  // Properties of the keyed lists

  /** Saving a key already present replaces the first element of that key in
      place: same length, same position, nothing else changes. */
  lemma {:induction false} UpsertExisting<T>(xs: seq<T>, key: T -> string, x: T)
    requires FindIndex(xs, key, key(x)) >= 0
    ensures var i := FindIndex(xs, key, key(x));
            var r := Upsert(xs, key, x);
            |r| == |xs| && r[i] == x && forall j :: 0 <= j < |xs| && j != i ==> r[j] == xs[j]
  {
  }

  /** Saving a new key puts the element in front of the others. */
  lemma {:induction false} UpsertNew<T>(xs: seq<T>, key: T -> string, x: T)
    requires forall j :: 0 <= j < |xs| ==> key(xs[j]) != key(x)
    ensures Upsert(xs, key, x) == [x] + xs
  {
  }

  /** A save never grows a list past its cap; when the list was within the
      cap, the saved element is in the result, and it is what a lookup of its
      key finds. */
  lemma {:induction false} SavedWithinCap<T>(xs: seq<T>, key: T -> string, x: T, n: nat)
    requires 1 <= n && |xs| <= n
    ensures |Cap(Upsert(xs, key, x), n)| <= n
    ensures x in Cap(Upsert(xs, key, x), n)
    ensures Find(Cap(Upsert(xs, key, x), n), key, key(x)) == Some(x)
  {
    var i := FindIndex(xs, key, key(x));
    var u := Upsert(xs, key, x);
    var r := Cap(u, n);
    if i >= 0 {
      assert r == u;
      FindIndexAt(r, key, i);
    } else {
      assert r[0] == x;
      FindIndexAt(r, key, 0);
    }
  }

  /** An element of key `k` with no earlier element of that key is what `FindIndex` finds. */
  lemma {:induction false} FindIndexAt<T>(xs: seq<T>, key: T -> string, i: nat)
    requires i < |xs| && forall j :: 0 <= j < i ==> key(xs[j]) != key(xs[i])
    ensures FindIndex(xs, key, key(xs[i])) == i
  {
    var r := FindIndex(xs, key, key(xs[i]));
    assert r >= 0;
  }

  /** A save keeps the keys unique. */
  lemma {:induction false} SavedKeepsUnique<T>(xs: seq<T>, key: T -> string, x: T, n: nat)
    requires UniqueKeys(xs, key)
    ensures UniqueKeys(Cap(Upsert(xs, key, x), n), key)
  {
    var u := Upsert(xs, key, x);
    var i := FindIndex(xs, key, key(x));
    if i < 0 {
      assert forall a :: 1 <= a < |u| ==> u[a] == xs[a - 1];
    }
    assert UniqueKeys(u, key);
    var r := Cap(u, n);
    assert forall a :: 0 <= a < |r| ==> r[a] == u[a];
  }

  /** Removing distributes over concatenation: the kept elements stay in their order. */
  lemma {:induction false} RemoveKeyAppend<T(!new)>(a: seq<T>, b: seq<T>, key: T -> string, k: string)
    ensures RemoveKey(a + b, key, k) == RemoveKey(a, key, k) + RemoveKey(b, key, k)
  {
    if a == [] {
      assert a + b == b;
    } else {
      assert (a + b)[1..] == a[1..] + b;
      RemoveKeyAppend(a[1..], b, key, k);
    }
  }

  /** Removing an absent key changes nothing. */
  lemma {:induction false} RemoveAbsentKey<T(!new)>(xs: seq<T>, key: T -> string, k: string)
    requires forall j :: 0 <= j < |xs| ==> key(xs[j]) != k
    ensures RemoveKey(xs, key, k) == xs
  {
    if xs != [] {
      RemoveAbsentKey(xs[1..], key, k);
    }
  }

  // ---------------------------------------------------------------------------
  // Updating an entry

  /** A `Partial<LocalSession>`: each field supplied or left as it is. */
  datatype LocalSessionPatch = LocalSessionPatch(
    id: Option<string>,
    topicName: Option<string>,
    urlCount: Option<nat>,
    status: Option<Status>,
    createdAt: Option<string>,
    notionPageUrl: Option<string>,
    progress: Option<Progress>)

  /** `{ ...s, ...updates }`. */
  function MergeLocal(s: LocalSession, p: LocalSessionPatch): LocalSession {
    LocalSession(
      p.id.GetOr(s.id), p.topicName.GetOr(s.topicName), p.urlCount.GetOr(s.urlCount),
      p.status.GetOr(s.status), p.createdAt.GetOr(s.createdAt),
      if p.notionPageUrl.Some? then p.notionPageUrl else s.notionPageUrl,
      if p.progress.Some? then p.progress else s.progress)
  }

  /** The history after `updateLocalHistory(id, p)`: the first entry of that
      id merged with `p`; nothing when there is none. */
  function UpdateEntry(xs: seq<LocalSession>, id: string, p: LocalSessionPatch): (r: seq<LocalSession>)
    ensures |r| == |xs|
    ensures FindIndex(xs, SessionKey, id) == -1 ==> r == xs
    ensures FindIndex(xs, SessionKey, id) >= 0 ==>
              r[FindIndex(xs, SessionKey, id)] == MergeLocal(xs[FindIndex(xs, SessionKey, id)], p)
    ensures forall j :: 0 <= j < |xs| && j != FindIndex(xs, SessionKey, id) ==> r[j] == xs[j]
  {
    var i := FindIndex(xs, SessionKey, id);
    if i >= 0 then xs[i := MergeLocal(xs[i], p)] else xs
  }

  /** An update that leaves the id alone keeps the order of the ids. */
  lemma {:induction false} UpdateKeepsOrder(xs: seq<LocalSession>, id: string, p: LocalSessionPatch)
    requires p.id.None?
    ensures Keys(UpdateEntry(xs, id, p), SessionKey) == Keys(xs, SessionKey)
  {
  }

  // ---------------------------------------------------------------------------
  // The store

  class LocalStore {
    var history: seq<LocalSession>
    var results: seq<LocalResult>

    /** Nothing stored yet. */
    constructor()
      ensures history == [] && results == []
    {
      history := [];
      results := [];
    }

    /** `getLocalHistory`. */
    method GetLocalHistory() returns (h: seq<LocalSession>)
      ensures h == history
    {
      h := history;
    }

    /** `saveToLocalHistory`: replace the entry of the same id in place, or put
        the session in front; then keep the first 50. */
    method SaveToLocalHistory(session: LocalSession)
      modifies this
      ensures history == Cap(Upsert(old(history), SessionKey, session), MaxHistoryItems)
      ensures results == old(results)
    {
      var h := history;
      var existing := FindIndex(h, SessionKey, session.id);
      if existing >= 0 {
        h := h[existing := session];
      } else {
        h := [session] + h;
      }
      history := Cap(h, MaxHistoryItems);
    }

    /** `updateLocalHistory`. */
    method UpdateLocalHistory(sessionId: string, updates: LocalSessionPatch)
      modifies this
      ensures history == UpdateEntry(old(history), sessionId, updates)
      ensures results == old(results)
    {
      var index := FindIndex(history, SessionKey, sessionId);
      if index >= 0 {
        history := history[index := MergeLocal(history[index], updates)];
      }
    }

    /** `removeFromLocalHistory`. */
    method RemoveFromLocalHistory(sessionId: string)
      modifies this
      ensures history == RemoveKey(old(history), SessionKey, sessionId)
      ensures results == old(results)
    {
      history := RemoveKey(history, SessionKey, sessionId);
    }

    /** `clearLocalHistory`: both lists are emptied. */
    method ClearLocalHistory()
      modifies this
      ensures history == [] && results == []
    {
      history := [];
      results := [];
    }

    /** `saveSessionResult`: the same replace-or-prepend, keeping the first 20. */
    method SaveSessionResult(result: LocalResult)
      modifies this
      ensures results == Cap(Upsert(old(results), ResultKey, result), MaxResultsItems)
      ensures history == old(history)
    {
      var rs := results;
      var existing := FindIndex(rs, ResultKey, result.sessionId);
      if existing >= 0 {
        rs := rs[existing := result];
      } else {
        rs := [result] + rs;
      }
      results := Cap(rs, MaxResultsItems);
    }

    /** `getSessionResult`: the first result of that session, if any. */
    method GetSessionResult(sessionId: string) returns (r: Option<LocalResult>)
      ensures r == Find(results, ResultKey, sessionId)
      ensures r.None? <==> forall j :: 0 <= j < |results| ==> results[j].sessionId != sessionId
      ensures r.Some? ==> r.value in results && r.value.sessionId == sessionId
    {
      r := Find(results, ResultKey, sessionId);
    }
  }
}
