/** The server's in-memory store of processing runs (src/lib/session-store.ts).

    The module-level `Map<string, StudySession>` becomes the field `sessions`
    of a `Store` object; `new Date()` becomes the parameter `now`. */
module SessionStore {
  import opened Wrappers
  import opened Types

  /** A `Partial<StudySession>`: each field is either supplied (`Some`) or
      left as it is (`None`). `updatedAt` is not listed: the store overwrites it. */
  datatype SessionPatch = SessionPatch(
    id: Option<string>,
    topicName: Option<string>,
    urls: Option<seq<string>>,
    status: Option<Status>,
    notionPageId: Option<string>,
    notionPageUrl: Option<string>,
    transcripts: Option<seq<TranscriptResult>>,
    summary: Option<SummaryResult>,
    createdAt: Option<int>,
    error: Option<string>,
    progress: Option<Progress>)

  const NoChange := SessionPatch(None, None, None, None, None, None, None, None, None, None, None)

  /** The supplied value if there is one, else the current one. */
  function Pick<T>(supplied: Option<T>, current: T): T {
    supplied.GetOr(current)
  }

  /** The same, for a field that is itself optional. */
  function PickOpt<T>(supplied: Option<T>, current: Option<T>): Option<T> {
    if supplied.Some? then supplied else current
  }

  /** `{ ...session, ...updates, updatedAt: now }`. */
  function Merge(s: Session, p: SessionPatch, now: int): (r: Session) {
    Session(
      Pick(p.id, s.id), Pick(p.topicName, s.topicName), Pick(p.urls, s.urls),
      Pick(p.status, s.status), PickOpt(p.notionPageId, s.notionPageId),
      PickOpt(p.notionPageUrl, s.notionPageUrl), PickOpt(p.transcripts, s.transcripts),
      PickOpt(p.summary, s.summary), Pick(p.createdAt, s.createdAt), now,
      PickOpt(p.error, s.error), PickOpt(p.progress, s.progress))
  }

  /** Two patches applied one after the other, as one: the later one wins field by field. */
  function Then(p: SessionPatch, q: SessionPatch): SessionPatch {
    SessionPatch(
      PickOpt(q.id, p.id), PickOpt(q.topicName, p.topicName), PickOpt(q.urls, p.urls),
      PickOpt(q.status, p.status), PickOpt(q.notionPageId, p.notionPageId),
      PickOpt(q.notionPageUrl, p.notionPageUrl), PickOpt(q.transcripts, p.transcripts),
      PickOpt(q.summary, p.summary), PickOpt(q.createdAt, p.createdAt),
      PickOpt(q.error, p.error), PickOpt(q.progress, p.progress))
  }

  /** The session `createSession` builds. */
  function NewSession(id: string, topicName: string, urls: seq<string>,
                      pageId: string, pageUrl: string, now: int): (r: Session)
    ensures r.id == id && r.topicName == topicName && r.urls == urls
    ensures r.status == Pending
    ensures r.progress == Some(Progress(0, |urls|, "Initializing"))
    ensures r.createdAt == now && r.updatedAt == now
    ensures r.notionPageId == Some(pageId) && r.notionPageUrl == Some(pageUrl)
    ensures r.transcripts.None? && r.summary.None? && r.error.None?
  {
    Session(id, topicName, urls, Pending, Some(pageId), Some(pageUrl), None, None,
            now, now, None, Some(Progress(0, |urls|, "Initializing")))
  }

  /** The map after `updateSession(id, p)`. */
  function Apply(m: map<string, Session>, id: string, p: SessionPatch, now: int): (r: map<string, Session>)
    ensures r.Keys == m.Keys
    ensures forall k :: k in m && k != id ==> r[k] == m[k]
    ensures id in m ==> r[id] == Merge(m[id], p, now)
  {
    if id in m then m[id := Merge(m[id], p, now)] else m
  }

  /** The map after one `updateSession(id, p)` for each patch in turn. */
  function ApplyAll(m: map<string, Session>, id: string, ps: seq<SessionPatch>, now: int): (r: map<string, Session>)
    ensures r.Keys == m.Keys
    ensures forall k :: k in m && k != id ==> r[k] == m[k]
    decreases |ps|
  {
    if ps == [] then m else Apply(ApplyAll(m, id, ps[..|ps| - 1], now), id, ps[|ps| - 1], now)
  }

  /** Ids newest first: `createdAt` never increases along the sequence. */
  predicate NewestFirst(keys: seq<string>, m: map<string, Session>)
    requires forall i :: 0 <= i < |keys| ==> keys[i] in m
  {
    forall i, j :: 0 <= i < j < |keys| ==> m[keys[i]].createdAt >= m[keys[j]].createdAt
  }

  /** Insert `k` into newest-first `keys`, keeping the order. */
  function InsertNewest(keys: seq<string>, k: string, m: map<string, Session>): (r: seq<string>)
    requires k in m && forall i :: 0 <= i < |keys| ==> keys[i] in m
    requires NewestFirst(keys, m)
    ensures forall i :: 0 <= i < |r| ==> r[i] in m
    ensures NewestFirst(r, m)
    ensures multiset(r) == multiset(keys) + multiset{k}
    ensures r[0] == k || (keys != [] && r[0] == keys[0])
  {
    if keys == [] then
      ConsNewest(k, [], m);
      [k]
    else if m[k].createdAt >= m[keys[0]].createdAt then
      ConsNewest(k, keys, m);
      [k] + keys
    else
      NewestTail(keys, m);
      var rest := InsertNewest(keys[1..], k, m);
      assert keys == [keys[0]] + keys[1..];
      ConsNewest(keys[0], rest, m);
      [keys[0]] + rest
  }

  /** A key at least as new as the head of a newest-first order, put in front
      of it, keeps the order newest first. */
  lemma {:induction false} ConsNewest(x: string, rest: seq<string>, m: map<string, Session>)
    requires x in m && forall i :: 0 <= i < |rest| ==> rest[i] in m
    requires NewestFirst(rest, m)
    requires rest == [] || m[x].createdAt >= m[rest[0]].createdAt
    ensures forall i :: 0 <= i < |[x] + rest| ==> ([x] + rest)[i] in m
    ensures NewestFirst([x] + rest, m)
  {
    var r := [x] + rest;
    assert forall i :: 1 <= i < |r| ==> r[i] == rest[i - 1];
    forall i, j | 0 <= i < j < |r|
      ensures m[r[i]].createdAt >= m[r[j]].createdAt
    {
      if i == 0 {
        assert m[rest[0]].createdAt >= m[rest[j - 1]].createdAt;
      }
    }
  }

  /** The tail of a newest-first order is newest first. */
  lemma {:induction false} NewestTail(keys: seq<string>, m: map<string, Session>)
    requires keys != [] && forall i :: 0 <= i < |keys| ==> keys[i] in m
    requires NewestFirst(keys, m)
    ensures forall i :: 0 <= i < |keys[1..]| ==> keys[1..][i] in m
    ensures NewestFirst(keys[1..], m)
  {
    var t := keys[1..];
    assert forall i :: 0 <= i < |t| ==> t[i] == keys[i + 1];
  }

  class Store {
    var sessions: map<string, Session>

    /** An empty store. */
    constructor()
      ensures sessions == map[]
    {
      sessions := map[];
    }

    /** `createSession`: stores a new pending session under `id`, replacing any
        session already there, and returns it. */
    method CreateSession(id: string, topicName: string, urls: seq<string>,
                         pageId: string, pageUrl: string, now: int) returns (s: Session)
      modifies this
      ensures s == NewSession(id, topicName, urls, pageId, pageUrl, now)
      ensures sessions == old(sessions)[id := s]
    {
      s := NewSession(id, topicName, urls, pageId, pageUrl, now);
      sessions := sessions[id := s];
    }

    /** `getSession`. */
    method GetSession(id: string) returns (r: Option<Session>)
      ensures r.Some? <==> id in sessions
      ensures r.Some? ==> r.value == sessions[id]
    {
      if id in sessions {
        r := Some(sessions[id]);
      } else {
        r := None;
      }
    }

    /** `updateSession`: an absent id leaves the store as it is and gives
        `None`; otherwise the session is merged with `p`, stamped `now`, and
        stored back under the same id. */
    method UpdateSession(id: string, p: SessionPatch, now: int) returns (r: Option<Session>)
      modifies this
      ensures sessions == Apply(old(sessions), id, p, now)
      ensures r.Some? <==> id in old(sessions)
      ensures r.Some? ==> r.value == Merge(old(sessions)[id], p, now)
    {
      if id in sessions {
        var updated := Merge(sessions[id], p, now);
        sessions := sessions[id := updated];
        r := Some(updated);
      } else {
        r := None;
      }
    }

    /** `getAllSessions`: every stored session exactly once, newest first.
        `keys` names the id each entry is stored under. */
    method GetAllSessions() returns (list: seq<Session>, ghost keys: seq<string>)
      ensures multiset(keys) == multiset(sessions.Keys)
      ensures |list| == |keys|
      ensures forall i :: 0 <= i < |keys| ==> keys[i] in sessions && list[i] == sessions[keys[i]]
      ensures forall i, j :: 0 <= i < j < |list| ==> list[i].createdAt >= list[j].createdAt
    {
      var order: seq<string> := [];
      var rest := sessions.Keys;
      while rest != {}
        invariant rest <= sessions.Keys
        invariant forall i :: 0 <= i < |order| ==> order[i] in sessions
        invariant NewestFirst(order, sessions)
        invariant multiset(order) == multiset(sessions.Keys - rest)
        decreases rest
      {
        var k :| k in rest;
        assert sessions.Keys - (rest - {k}) == (sessions.Keys - rest) + {k};
        order := InsertNewest(order, k, sessions);
        rest := rest - {k};
      }
      assert sessions.Keys - rest == sessions.Keys;
      var m := sessions;
      list := seq(|order|, i requires 0 <= i < |order| => m[order[i]]);
      keys := order;
    }

    /** `deleteSession`: true exactly when the id was stored; afterwards it is not. */
    method DeleteSession(id: string) returns (existed: bool)
      modifies this
      ensures existed <==> id in old(sessions)
      ensures sessions == old(sessions) - {id}
    {
      existed := id in sessions;
      sessions := sessions - {id};
    }
  }

  // ---------------------------------------------------------------------------
  // Properties of the merge

  /** An empty patch changes nothing but `updatedAt`. */
  lemma {:induction false} MergeNoChange(s: Session, now: int)
    ensures Merge(s, NoChange, now) == s.(updatedAt := now)
  {
  }

  /** A supplied field takes the supplied value; a field not supplied keeps its value. */
  lemma {:induction false} MergeFields(s: Session, p: SessionPatch, now: int)
    ensures Merge(s, p, now).updatedAt == now
    ensures p.id.Some? ==> Merge(s, p, now).id == p.id.value
    ensures p.id.None? ==> Merge(s, p, now).id == s.id
    ensures p.topicName.Some? ==> Merge(s, p, now).topicName == p.topicName.value
    ensures p.topicName.None? ==> Merge(s, p, now).topicName == s.topicName
    ensures p.urls.Some? ==> Merge(s, p, now).urls == p.urls.value
    ensures p.urls.None? ==> Merge(s, p, now).urls == s.urls
    ensures p.status.Some? ==> Merge(s, p, now).status == p.status.value
    ensures p.status.None? ==> Merge(s, p, now).status == s.status
    ensures p.notionPageId.Some? ==> Merge(s, p, now).notionPageId == p.notionPageId
    ensures p.notionPageId.None? ==> Merge(s, p, now).notionPageId == s.notionPageId
    ensures p.notionPageUrl.Some? ==> Merge(s, p, now).notionPageUrl == p.notionPageUrl
    ensures p.notionPageUrl.None? ==> Merge(s, p, now).notionPageUrl == s.notionPageUrl
    ensures p.transcripts.Some? ==> Merge(s, p, now).transcripts == p.transcripts
    ensures p.transcripts.None? ==> Merge(s, p, now).transcripts == s.transcripts
    ensures p.summary.Some? ==> Merge(s, p, now).summary == p.summary
    ensures p.summary.None? ==> Merge(s, p, now).summary == s.summary
    ensures p.createdAt.Some? ==> Merge(s, p, now).createdAt == p.createdAt.value
    ensures p.createdAt.None? ==> Merge(s, p, now).createdAt == s.createdAt
    ensures p.error.Some? ==> Merge(s, p, now).error == p.error
    ensures p.error.None? ==> Merge(s, p, now).error == s.error
    ensures p.progress.Some? ==> Merge(s, p, now).progress == p.progress
    ensures p.progress.None? ==> Merge(s, p, now).progress == s.progress
  {
  }

  /** Two merges in a row are one merge with the two patches combined. */
  lemma {:induction false} MergeThen(s: Session, p: SessionPatch, q: SessionPatch, t1: int, t2: int)
    ensures Merge(Merge(s, p, t1), q, t2) == Merge(s, Then(p, q), t2)
  {
  }

  /** Updates in sequence compose: the run of `ps` then `qs` is the run of `ps + qs`. */
  lemma {:induction false} ApplyAllAppend(m: map<string, Session>, id: string, ps: seq<SessionPatch>, qs: seq<SessionPatch>, now: int)
    ensures ApplyAll(m, id, ps + qs, now) == ApplyAll(ApplyAll(m, id, ps, now), id, qs, now)
    decreases |qs|
  {
    if qs == [] {
      assert ps + qs == ps;
    } else {
      assert (ps + qs)[..|ps + qs| - 1] == ps + qs[..|qs| - 1];
      ApplyAllAppend(m, id, ps, qs[..|qs| - 1], now);
    }
  }

  /** Updates of an id that is not stored change nothing. */
  lemma {:induction false} ApplyAllAbsent(m: map<string, Session>, id: string, ps: seq<SessionPatch>, now: int)
    requires id !in m
    ensures ApplyAll(m, id, ps, now) == m
    decreases |ps|
  {
    if ps != [] {
      ApplyAllAbsent(m, id, ps[..|ps| - 1], now);
    }
  }

  /** One more update after a run of updates. */
  lemma {:induction false} ApplyAllSnoc(m: map<string, Session>, id: string, ps: seq<SessionPatch>, p: SessionPatch, now: int)
    ensures ApplyAll(m, id, ps + [p], now) == Apply(ApplyAll(m, id, ps, now), id, p, now)
  {
    assert (ps + [p])[..|ps + [p]| - 1] == ps;
  }

  /** A run of patches folded into one, later patches winning. */
  function Compose(ps: seq<SessionPatch>): SessionPatch
    decreases |ps|
  {
    if ps == [] then NoChange else Then(Compose(ps[..|ps| - 1]), ps[|ps| - 1])
  }

  lemma {:induction false} ThenAssoc(p: SessionPatch, q: SessionPatch, r: SessionPatch)
    ensures Then(Then(p, q), r) == Then(p, Then(q, r))
  {
  }

  lemma {:induction false} ThenNoChange(p: SessionPatch)
    ensures Then(NoChange, p) == p && Then(p, NoChange) == p
  {
  }

  /** Folding composes: the fold of `ps + qs` is the fold of `ps` followed by the fold of `qs`. */
  lemma {:induction false} ComposeAppend(ps: seq<SessionPatch>, qs: seq<SessionPatch>)
    ensures Compose(ps + qs) == Then(Compose(ps), Compose(qs))
    decreases |qs|
  {
    if qs == [] {
      assert ps + qs == ps;
      ThenNoChange(Compose(ps));
    } else {
      var init := qs[..|qs| - 1];
      var last := qs[|qs| - 1];
      assert (ps + qs)[..|ps + qs| - 1] == ps + init;
      assert (ps + qs)[|ps + qs| - 1] == last;
      ComposeAppend(ps, init);
      ThenAssoc(Compose(ps), Compose(init), last);
    }
  }

  /** A stored session after a non-empty run of updates is the session merged
      once with the folded patch, stamped with the last time. */
  lemma {:induction false} ApplyAllIsMerge(m: map<string, Session>, id: string, ps: seq<SessionPatch>, now: int)
    requires id in m && ps != []
    ensures id in ApplyAll(m, id, ps, now)
    ensures ApplyAll(m, id, ps, now)[id] == Merge(m[id], Compose(ps), now)
    decreases |ps|
  {
    var init := ps[..|ps| - 1];
    var last := ps[|ps| - 1];
    if init == [] {
      ThenNoChange(last);
    } else {
      ApplyAllIsMerge(m, id, init, now);
      MergeThen(m[id], Compose(init), last, now, now);
    }
  }
}
