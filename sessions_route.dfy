/** The session list (src/app/api/sessions/route.ts): `GET` answers with one
    short entry per stored session, in the store's newest-first order. */
module SessionsRoute {
  import opened Wrappers
  import opened Types
  import opened SessionStore

  /** What the list shows of a session: the transcripts, the summary, the
      progress, the error, the page id and the update time stay on the server. */
  datatype ListEntry = ListEntry(
    id: string,
    topicName: string,
    status: Status,
    urlCount: nat,
    notionPageUrl: Option<string>,
    createdAt: int)

  function Entry(s: Session): ListEntry {
    ListEntry(s.id, s.topicName, s.status, |s.urls|, s.notionPageUrl, s.createdAt)
  }

  /** The `map` over the sessions: one entry per session, in the same order,
      with the visible fields copied and the URLs counted. */
  function SessionList(all: seq<Session>): (r: seq<ListEntry>)
    ensures |r| == |all|
    ensures forall i :: 0 <= i < |all| ==>
              && r[i].id == all[i].id
              && r[i].topicName == all[i].topicName
              && r[i].status == all[i].status
              && r[i].urlCount == |all[i].urls|
              && r[i].notionPageUrl == all[i].notionPageUrl
              && r[i].createdAt == all[i].createdAt
  {
    seq(|all|, i requires 0 <= i < |all| => Entry(all[i]))
  }

  /** Sessions that differ only in what the list does not show give the same list. */
  lemma {:induction false} SessionListHidesDetails(all: seq<Session>, other: seq<Session>)
    requires |other| == |all|
    requires forall i :: 0 <= i < |all| ==>
               other[i] == all[i].(transcripts := other[i].transcripts, summary := other[i].summary,
                                   progress := other[i].progress, error := other[i].error,
                                   notionPageId := other[i].notionPageId, updatedAt := other[i].updatedAt)
    ensures SessionList(other) == SessionList(all)
  {
    var r, q := SessionList(all), SessionList(other);
    forall i | 0 <= i < |all|
      ensures q[i] == r[i]
    {
      assert other[i].urls == all[i].urls && other[i].id == all[i].id;
    }
  }

  /** A list built from newest-first sessions is newest first. */
  lemma {:induction false} SessionListNewestFirst(all: seq<Session>)
    requires forall i, j :: 0 <= i < j < |all| ==> all[i].createdAt >= all[j].createdAt
    ensures var r := SessionList(all);
            forall i, j :: 0 <= i < j < |r| ==> r[i].createdAt >= r[j].createdAt
  {
  }

  /** A bigger list for more sessions: the entries of two lists side by side. */
  lemma {:induction false} SessionListAppend(a: seq<Session>, b: seq<Session>)
    ensures SessionList(a + b) == SessionList(a) + SessionList(b)
  {
    var l, r := SessionList(a + b), SessionList(a) + SessionList(b);
    forall i | 0 <= i < |a + b|
      ensures l[i] == r[i]
    {
      if i < |a| {
        assert (a + b)[i] == a[i];
      } else {
        assert (a + b)[i] == b[i - |a|];
      }
    }
  }

  /** `GET`: every stored session appears exactly once, as its entry, newest
      first. `keys` names the id each entry's session is stored under. */
  method Get(store: Store) returns (entries: seq<ListEntry>, ghost keys: seq<string>)
    ensures multiset(keys) == multiset(store.sessions.Keys)
    ensures |entries| == |keys|
    ensures forall i :: 0 <= i < |keys| ==> keys[i] in store.sessions && entries[i] == Entry(store.sessions[keys[i]])
    ensures forall i, j :: 0 <= i < j < |entries| ==> entries[i].createdAt >= entries[j].createdAt
  {
    var all;
    all, keys := store.GetAllSessions();
    entries := SessionList(all);
    SessionListNewestFirst(all);
  }
}
