/**
 * `fetchDocuments` of frontend/src/pages/Dashboard.tsx: load the user's
 * documents and the chat timestamps, take each document's newest chat
 * timestamp (the first one met, the rows arriving newest first), and order
 * the documents by that timestamp, or by their upload time when they have
 * no chat, most recent first.
 */
module Dashboard {
  import opened Wrappers

  /** `Document` of frontend/src/types/index.ts. */
  datatype Document = Document(id: string, userId: string, name: string, storagePath: string, createdAt: string)

  /** A row of `chat_messages` as selected here: its document and its timestamp. */
  datatype ChatStamp = ChatStamp(documentId: string, createdAt: string)

  /** The `documents` query: an error, or data that may be `null`. */
  datatype DocumentsQuery = DocumentsFailed(message: string) | DocumentsLoaded(data: Option<seq<Document>>)

  /** `data ?? []` */
  function OrEmpty<T>(o: Option<seq<T>>): seq<T> {
    if o.Some? then o.value else []
  }

  // ---------------------------------------------------------------------
  // The latest-chat map

  /** The map the `for` loop builds from a prefix of the rows: an id keeps the first timestamp met. */
  function FirstWins(rows: seq<ChatStamp>): map<string, string> {
    if rows == [] then map[]
    else
      var m := FirstWins(rows[..|rows| - 1]);
      var row := rows[|rows| - 1];
      if row.documentId in m then m else m[row.documentId := row.createdAt]
  }

  /** The `for (const row of chatData ?? [])` loop. */
  method BuildLatestChat(rows: seq<ChatStamp>) returns (latest: map<string, string>)
    ensures latest == FirstWins(rows)
    ensures forall id :: id in latest <==> exists j :: 0 <= j < |rows| && rows[j].documentId == id
  {
    latest := map[];
    for i := 0 to |rows|
      invariant latest == FirstWins(rows[..i])
    {
      assert rows[..i + 1][..i] == rows[..i];
      if rows[i].documentId !in latest {
        latest := latest[rows[i].documentId := rows[i].createdAt];
      }
    }
    assert rows[..|rows|] == rows;
    FirstWinsKeys(rows);
  }

  /** The map has a key for exactly the documents that have a chat row. */
  lemma {:induction false} FirstWinsKeys(rows: seq<ChatStamp>)
    ensures forall id :: id in FirstWins(rows) <==> exists j :: 0 <= j < |rows| && rows[j].documentId == id
  {
    if rows != [] {
      var init := rows[..|rows| - 1];
      FirstWinsKeys(init);
      forall id | exists j :: 0 <= j < |rows| && rows[j].documentId == id
        ensures id in FirstWins(rows)
      {
        var j :| 0 <= j < |rows| && rows[j].documentId == id;
        if j < |rows| - 1 {
          assert init[j] == rows[j];
        }
      }
      forall id | id in FirstWins(rows)
        ensures exists j :: 0 <= j < |rows| && rows[j].documentId == id
      {
        if id in FirstWins(init) {
          var j :| 0 <= j < |init| && init[j].documentId == id;
          assert rows[j] == init[j];
        } else {
          assert rows[|rows| - 1].documentId == id;
        }
      }
    }
  }

  /** Each document's entry is the timestamp of its first row: no earlier row names the same document. */
  lemma {:induction false} FirstWinsIsFirstRow(rows: seq<ChatStamp>, j: nat)
    requires j < |rows|
    requires forall i :: 0 <= i < j ==> rows[i].documentId != rows[j].documentId
    ensures rows[j].documentId in FirstWins(rows)
    ensures FirstWins(rows)[rows[j].documentId] == rows[j].createdAt
  {
    var init := rows[..|rows| - 1];
    if j == |rows| - 1 {
      forall i | 0 <= i < |init|
        ensures init[i].documentId != rows[j].documentId
      {
        assert init[i] == rows[i];
      }
      FirstWinsKeys(init);
    } else {
      assert init[j] == rows[j];
      FirstWinsIsFirstRow(init, j);
    }
  }

  /** A string no greater than another in code-point order. */
  predicate NotAfter(a: string, b: string)
    decreases |a|
  {
    a == [] || (b != [] && (a[0] < b[0] || (a[0] == b[0] && NotAfter(a[1..], b[1..]))))
  }

  lemma {:induction false} NotAfterReflexive(a: string)
    ensures NotAfter(a, a)
  {
    if a != [] {
      NotAfterReflexive(a[1..]);
    }
  }

  lemma {:induction false} NotAfterTotal(a: string, b: string)
    ensures NotAfter(a, b) || NotAfter(b, a)
  {
    if a != [] && b != [] && a[0] == b[0] {
      NotAfterTotal(a[1..], b[1..]);
    }
  }

  lemma {:induction false} NotAfterTransitive(a: string, b: string, c: string)
    requires NotAfter(a, b) && NotAfter(b, c)
    ensures NotAfter(a, c)
  {
    if a != [] && b != [] && c != [] && a[0] == b[0] && b[0] == c[0] {
      NotAfterTransitive(a[1..], b[1..], c[1..]);
    }
  }

  /**
   * When the rows arrive newest first, as the query orders them, the
   * entry of each document is its newest chat timestamp.
   */
  lemma {:induction false} FirstWinsIsNewest(rows: seq<ChatStamp>, j: nat)
    requires forall i :: 0 < i < |rows| ==> NotAfter(rows[i].createdAt, rows[i - 1].createdAt)
    requires j < |rows|
    ensures rows[j].documentId in FirstWins(rows)
    ensures NotAfter(rows[j].createdAt, FirstWins(rows)[rows[j].documentId])
  {
    var f := FirstOccurrence(rows, j);
    FirstWinsIsFirstRow(rows, f);
    DescendingFromEarlier(rows, f, j);
  }

  /** The first index whose row names the same document as row `j`. */
  lemma {:induction false} FirstOccurrence(rows: seq<ChatStamp>, j: nat) returns (f: nat)
    requires j < |rows|
    ensures f <= j && rows[f].documentId == rows[j].documentId
    ensures forall i :: 0 <= i < f ==> rows[i].documentId != rows[j].documentId
  {
    if exists i :: 0 <= i < j && rows[i].documentId == rows[j].documentId {
      var i :| 0 <= i < j && rows[i].documentId == rows[j].documentId;
      f := FirstOccurrence(rows, i);
    } else {
      f := j;
    }
  }

  /** In rows ordered newest first, a later row is no newer than an earlier one. */
  lemma {:induction false} DescendingFromEarlier(rows: seq<ChatStamp>, i: nat, j: nat)
    requires forall k :: 0 < k < |rows| ==> NotAfter(rows[k].createdAt, rows[k - 1].createdAt)
    requires i <= j < |rows|
    ensures NotAfter(rows[j].createdAt, rows[i].createdAt)
    decreases j - i
  {
    if i == j {
      NotAfterReflexive(rows[i].createdAt);
    } else {
      DescendingFromEarlier(rows, i, j - 1);
      NotAfterTransitive(rows[j].createdAt, rows[j - 1].createdAt, rows[i].createdAt);
    }
  }

  // ---------------------------------------------------------------------
  // The recency order

  /** `latestChat.get(d.id) ?? d.created_at`. */
  function Recency(d: Document, latest: map<string, string>): string {
    if d.id in latest then latest[d.id] else d.createdAt
  }

  /** Most recent first: no document is older than the one after it. */
  predicate Descending(ds: seq<Document>, latest: map<string, string>) {
    forall i :: 0 < i < |ds| ==> NotAfter(Recency(ds[i], latest), Recency(ds[i - 1], latest))
  }

  /**
   * Place `d` before the first document that is not more recent than it;
   * a document of equal recency already there stays after `d`, which came first.
   */
  function Insert(d: Document, ds: seq<Document>, latest: map<string, string>): (r: seq<Document>)
    ensures multiset(r) == multiset(ds) + multiset{d}
    ensures |r| == |ds| + 1
    ensures r[0] == d || (ds != [] && r[0] == ds[0])
  {
    if ds == [] || NotAfter(Recency(ds[0], latest), Recency(d, latest)) then [d] + ds
    else
      assert ds == [ds[0]] + ds[1..];
      [ds[0]] + Insert(d, ds[1..], latest)
  }

  /** The stable sort with comparator `bTime.localeCompare(aTime)`. */
  function SortByRecency(ds: seq<Document>, latest: map<string, string>): (r: seq<Document>)
    ensures multiset(r) == multiset(ds)
  {
    if ds == [] then []
    else
      assert ds == [ds[0]] + ds[1..];
      Insert(ds[0], SortByRecency(ds[1..], latest), latest)
  }

  lemma {:induction false} InsertKeepsDescending(d: Document, ds: seq<Document>, latest: map<string, string>)
    requires Descending(ds, latest)
    ensures Descending(Insert(d, ds, latest), latest)
  {
    if ds != [] && !NotAfter(Recency(ds[0], latest), Recency(d, latest)) {
      InsertKeepsDescending(d, ds[1..], latest);
      NotAfterTotal(Recency(ds[0], latest), Recency(d, latest));
      var r := Insert(d, ds, latest);
      assert r[1..] == Insert(d, ds[1..], latest);
    }
  }

  /** The sorted list is most recent first (it holds the same documents by the contract of `SortByRecency`). */
  lemma {:induction false} SortedByRecency(ds: seq<Document>, latest: map<string, string>)
    ensures Descending(SortByRecency(ds, latest), latest)
  {
    if ds != [] {
      SortedByRecency(ds[1..], latest);
      InsertKeepsDescending(ds[0], SortByRecency(ds[1..], latest), latest);
    }
  }

  /** A list already most recent first is left as it is, ties included. */
  lemma {:induction false} SortKeepsDescendingOrder(ds: seq<Document>, latest: map<string, string>)
    requires Descending(ds, latest)
    ensures SortByRecency(ds, latest) == ds
  {
    if ds != [] {
      assert Descending(ds[1..], latest) by {
        forall i | 0 < i < |ds[1..]|
          ensures NotAfter(Recency(ds[1..][i], latest), Recency(ds[1..][i - 1], latest))
        {
          assert ds[1..][i] == ds[i + 1] && ds[1..][i - 1] == ds[i];
        }
      }
      SortKeepsDescendingOrder(ds[1..], latest);
      assert ds == [ds[0]] + ds[1..];
    }
  }

  /** The documents of `ds` whose recency is `k`, in the order of `ds`. */
  function SameRecency(ds: seq<Document>, latest: map<string, string>, k: string): seq<Document> {
    if ds == [] then []
    else (if Recency(ds[0], latest) == k then [ds[0]] else []) + SameRecency(ds[1..], latest, k)
  }

  /** `SameRecency` of a list with a head is the head's part followed by the rest's. */
  lemma SameRecencyCons(x: Document, xs: seq<Document>, latest: map<string, string>, k: string)
    ensures SameRecency([x] + xs, latest, k)
         == (if Recency(x, latest) == k then [x] else []) + SameRecency(xs, latest, k)
  {
    assert ([x] + xs)[1..] == xs;
  }

  /** A head of another recency than `d` can be moved past `d`'s part. */
  lemma PassOtherRecency(e: Document, d: Document, ins: seq<Document>, rest: seq<Document>,
                         latest: map<string, string>, k: string)
    requires Recency(e, latest) != Recency(d, latest)
    requires SameRecency(ins, latest, k) == (if Recency(d, latest) == k then [d] else []) + SameRecency(rest, latest, k)
    ensures SameRecency([e] + ins, latest, k)
         == (if Recency(d, latest) == k then [d] else []) + SameRecency([e] + rest, latest, k)
  {
    SameRecencyCons(e, ins, latest, k);
    SameRecencyCons(e, rest, latest, k);
  }

  /** An inserted document goes before every document of its own recency. */
  lemma {:induction false} InsertSameRecency(d: Document, ds: seq<Document>, latest: map<string, string>, k: string)
    ensures SameRecency(Insert(d, ds, latest), latest, k)
         == (if Recency(d, latest) == k then [d] else []) + SameRecency(ds, latest, k)
  {
    if ds == [] || NotAfter(Recency(ds[0], latest), Recency(d, latest)) {
      SameRecencyCons(d, ds, latest, k);
    } else {
      var e, rest := ds[0], ds[1..];
      var ins := Insert(d, rest, latest);
      assert Insert(d, ds, latest) == [e] + ins;
      NotAfterReflexive(Recency(d, latest));
      InsertSameRecency(d, rest, latest, k);
      PassOtherRecency(e, d, ins, rest, latest, k);
      assert ds == [e] + rest;
    }
  }

  /** The sort is stable: documents of equal recency keep their input order. */
  lemma {:induction false} SortIsStable(ds: seq<Document>, latest: map<string, string>, k: string)
    ensures SameRecency(SortByRecency(ds, latest), latest, k) == SameRecency(ds, latest, k)
  {
    if ds != [] {
      SortIsStable(ds[1..], latest, k);
      InsertSameRecency(ds[0], SortByRecency(ds[1..], latest), latest, k);
    }
  }

  // ---------------------------------------------------------------------
  // The page state

  class DashboardPage {
    var documents: seq<Document>
    var loading: bool
    var fetchError: Option<string>

    /** The initial state: no documents, loading, no error. */
    constructor ()
      ensures documents == [] && loading && fetchError == None
    {
      documents, loading, fetchError := [], true, None;
    }

    /**
     * `fetchDocuments` once both queries have answered: on a documents
     * error the message is shown and the list kept; otherwise the list is
     * the documents in recency order. A failed chat query counts as no chats.
     */
    method FetchDocuments(docs: DocumentsQuery, chatData: Option<seq<ChatStamp>>)
      modifies this
      ensures !loading
      ensures docs.DocumentsFailed? ==> fetchError == Some(docs.message) && documents == old(documents)
      ensures docs.DocumentsLoaded? ==>
        && fetchError == None
        && documents == SortByRecency(OrEmpty(docs.data), FirstWins(OrEmpty(chatData)))
    {
      loading := true;
      fetchError := None;
      match docs
      case DocumentsFailed(message) =>
        fetchError := Some(message);
        loading := false;
      case DocumentsLoaded(data) =>
        var latest := BuildLatestChat(OrEmpty(chatData));
        documents := SortByRecency(OrEmpty(data), latest);
        loading := false;
    }
  }
}
