/**
 * The shared collection of photo-edit submissions: the record schema both pages agree on,
 * the store that holds the collection (the `photoEditSubmissions` entry of the browser's
 * local storage, here a sequence rather than JSON text), and the three list operations the
 * pages apply to it: `filter`, `find` and "update the record `find` returned".
 */
module Submissions {
  import opened Text

  datatype Option<T> = None | Some(value: T)

  /**
   * The lifecycle status. `Other` stands for any status text the pages do not know; it is only
   * ever built by `ParseStatus`, so it never carries `pending`, `in-progress` or `completed`.
   */
  datatype Status = Pending | InProgress | Completed | Other(text: string)

  /** The stored status text as the pages compare it (`s.status === 'pending'` and so on). */
  function ParseStatus(text: string): (st: Status)
    ensures st == Pending <==> text == "pending"
    ensures st == InProgress <==> text == "in-progress"
    ensures st == Completed <==> text == "completed"
    ensures st.Other? ==> st.text == text
  {
    if text == "pending" then Pending
    else if text == "in-progress" then InProgress
    else if text == "completed" then Completed
    else Other(text)
  }

  /** Name, byte size and MIME type of a file picked in the browser. */
  datatype FileInfo = FileInfo(name: string, size: nat, mimeType: string)

  /**
   * One submission. `rushOrder`/`highRes` are false when the stored object lacks them; the
   * three optional timestamps/link and the two data-URL payloads are absent until set.
   */
  datatype Record = Record(
    id: string,
    email: string,
    name: string,
    instructions: string,
    rushOrder: bool,
    highRes: bool,
    fileName: string,
    fileSize: nat,
    fileType: string,
    paymentFileName: string,
    paymentFileSize: nat,
    paymentFileType: string,
    fileData: Option<string>,
    paymentFileData: Option<string>,
    totalPrice: string,
    submissionDate: string,
    status: Status,
    paymentStatus: string,
    stripeLink: Option<string>,
    approvedDate: Option<string>,
    completedDate: Option<string>)

  /** The identifier the intake page gives a new request: `req_<Date.now()>_<random suffix>`. */
  function RequestId(timestamp: nat, suffix: string): (id: string)
  {
    "req_" + Decimal(timestamp) + "_" + suffix
  }

  /** No two records of `s` share an identifier. */
  predicate UniqueIds(s: seq<Record>)
  {
    forall i, j :: 0 <= i < |s| && 0 <= j < |s| && s[i].id == s[j].id ==> i == j
  }

  /** Number of records of `s` whose identifier is `id`. */
  function IdCount(s: seq<Record>, id: string): (n: nat)
  {
    if s == [] then 0 else (if s[0].id == id then 1 else 0) + IdCount(s[1..], id)
  }

  /** The conditions the pages filter the collection by. */
  datatype Criterion =
    | IdIsNot(id: string)     // rejecting a request keeps every other record
    | StatusIs(status: Status) // one dashboard list per status
    | Unlisted                // a status no dashboard list shows

  predicate Keeps(c: Criterion, r: Record)
  {
    match c
    case IdIsNot(id) => r.id != id
    case StatusIs(st) => r.status == st
    case Unlisted => r.status.Other?
  }

  /** `s.filter(...)`: the records of `s` that satisfy `c`, in their original order. */
  function Filter(s: seq<Record>, c: Criterion): (r: seq<Record>)
    ensures |r| <= |s|
    ensures forall x :: x in r <==> x in s && Keeps(c, x)
  {
    if s == [] then []
    else (if Keeps(c, s[0]) then [s[0]] else []) + Filter(s[1..], c)
  }

  /** Filtering distributes over concatenation: the kept records stay in their relative order. */
  lemma {:induction false} FilterAppend(a: seq<Record>, b: seq<Record>, c: Criterion)
    ensures Filter(a + b, c) == Filter(a, c) + Filter(b, c)
  {
    if a == [] {
      assert a + b == b;
    } else {
      assert (a + b)[1..] == a[1..] + b;
      FilterAppend(a[1..], b, c);
    }
  }

  /** Filtering keeps a collection whose every record qualifies as it is. */
  lemma {:induction false} FilterKeepsAll(s: seq<Record>, c: Criterion)
    requires forall i :: 0 <= i < |s| ==> Keeps(c, s[i])
    ensures Filter(s, c) == s
  {
    if s != [] {
      assert Keeps(c, s[0]);
      FilterKeepsAll(s[1..], c);
    }
  }

  /** Filtering empties a collection none of whose records qualifies. */
  lemma {:induction false} FilterDropsAll(s: seq<Record>, c: Criterion)
    requires forall i :: 0 <= i < |s| ==> !Keeps(c, s[i])
    ensures Filter(s, c) == []
  {
    if s != [] {
      assert !Keeps(c, s[0]);
      FilterDropsAll(s[1..], c);
    }
  }

  /** Removing one identifier shortens the collection by exactly the number of records carrying it. */
  lemma {:induction false} RemovedCount(s: seq<Record>, id: string)
    ensures |Filter(s, IdIsNot(id))| == |s| - IdCount(s, id)
  {
    if s != [] {
      RemovedCount(s[1..], id);
    }
  }

  /** With unique identifiers, an identifier that occurs at all occurs exactly once. */
  lemma {:induction false} UniqueIdCount(s: seq<Record>, id: string)
    requires UniqueIds(s)
    ensures IdCount(s, id) == (if exists i :: 0 <= i < |s| && s[i].id == id then 1 else 0)
  {
    if s != [] {
      assert UniqueIds(s[1..]) by {
        forall i, j | 0 <= i < |s[1..]| && 0 <= j < |s[1..]| && s[1..][i].id == s[1..][j].id
          ensures i == j
        {
          assert s[1..][i] == s[i + 1] && s[1..][j] == s[j + 1];
        }
      }
      UniqueIdCount(s[1..], id);
      if s[0].id == id {
        forall i | 0 <= i < |s[1..]| ensures s[1..][i].id != id {
          assert s[1..][i] == s[i + 1];
        }
      } else {
        if exists i :: 0 <= i < |s| && s[i].id == id {
          var i :| 0 <= i < |s| && s[i].id == id;
          assert s[1..][i - 1] == s[i];
        }
        if exists i :: 0 <= i < |s[1..]| && s[1..][i].id == id {
          var i :| 0 <= i < |s[1..]| && s[1..][i].id == id;
          assert s[i + 1] == s[1..][i];
        }
      }
    }
  }

  /** Filtering never creates a duplicate identifier. */
  lemma {:induction false} FilterKeepsUniqueIds(s: seq<Record>, c: Criterion)
    requires UniqueIds(s)
    ensures UniqueIds(Filter(s, c))
  {
    if s != [] {
      assert UniqueIds(s[1..]) by {
        forall i, j | 0 <= i < |s[1..]| && 0 <= j < |s[1..]| && s[1..][i].id == s[1..][j].id
          ensures i == j
        {
          assert s[1..][i] == s[i + 1] && s[1..][j] == s[j + 1];
        }
      }
      FilterKeepsUniqueIds(s[1..], c);
      var rest := Filter(s[1..], c);
      if Keeps(c, s[0]) {
        forall k | 0 <= k < |rest| ensures rest[k].id != s[0].id {
          assert rest[k] in s[1..];
          var m :| 0 <= m < |s[1..]| && s[1..][m] == rest[k];
          assert s[m + 1] == rest[k];
        }
        var r := [s[0]] + rest;
        assert forall k :: 1 <= k < |r| ==> r[k] == rest[k - 1];
      } else {
        assert Filter(s, c) == rest;
      }
    }
  }

  /** Two filters applied one after the other give the same result in either order. */
  lemma {:induction false} FilterCommutes(s: seq<Record>, a: Criterion, b: Criterion)
    ensures Filter(Filter(s, a), b) == Filter(Filter(s, b), a)
  {
    if s != [] {
      FilterCommutes(s[1..], a, b);
      var x := s[0];
      FilterAppend(if Keeps(a, x) then [x] else [], Filter(s[1..], a), b);
      FilterAppend(if Keeps(b, x) then [x] else [], Filter(s[1..], b), a);
    }
  }

  /**
   * Each record is counted in exactly one place: the pending, in-progress and completed lists
   * and the records with an unknown status together account for the whole collection.
   */
  lemma {:induction false} StatusPartition(s: seq<Record>)
    ensures |Filter(s, StatusIs(Pending))| + |Filter(s, StatusIs(InProgress))|
      + |Filter(s, StatusIs(Completed))| + |Filter(s, Unlisted)| == |s|
  {
    if s != [] {
      StatusPartition(s[1..]);
    }
  }

  /** `s.findIndex(r => r.id === id)`: the position of the first record with that identifier. */
  function FirstIndex(s: seq<Record>, id: string): (r: Option<nat>)
    ensures r.None? <==> forall j :: 0 <= j < |s| ==> s[j].id != id
    ensures r.Some? ==>
      r.value < |s| && s[r.value].id == id && forall j :: 0 <= j < r.value ==> s[j].id != id
  {
    if s == [] then None
    else if s[0].id == id then Some(0)
    else match FirstIndex(s[1..], id)
      case None => None
      case Some(k) => Some(k + 1)
  }

  /** The two in-place updates the dashboard applies to a found record. */
  datatype Change =
    | MarkComplete(at: string)           // status `completed`, `completed_date` stamped
    | Approve(link: string, at: string)  // status `in-progress`, `stripe_link` and `approved_date` set

  /** Applies a change to one record; every field the change does not name is left as it was. */
  function Apply(r: Record, ch: Change): (r': Record)
    ensures r'.(status := r.status, stripeLink := r.stripeLink, approvedDate := r.approvedDate,
                completedDate := r.completedDate) == r
    ensures ch.MarkComplete? ==>
      r'.status == Completed && r'.completedDate == Some(ch.at)
      && r'.stripeLink == r.stripeLink && r'.approvedDate == r.approvedDate
    ensures ch.Approve? ==>
      r'.status == InProgress && r'.stripeLink == Some(ch.link)
      && r'.approvedDate == Some(ch.at) && r'.completedDate == r.completedDate
  {
    match ch
    case MarkComplete(at) => r.(status := Completed, completedDate := Some(at))
    case Approve(link, at) => r.(status := InProgress, stripeLink := Some(link), approvedDate := Some(at))
  }

  /** `find` followed by an in-place change: only the first record with identifier `id` is changed. */
  function UpdateFirst(s: seq<Record>, id: string, ch: Change): (r: seq<Record>)
  {
    if s == [] then []
    else if s[0].id == id then [Apply(s[0], ch)] + s[1..]
    else [s[0]] + UpdateFirst(s[1..], id, ch)
  }

  /**
   * The update touches one position at most: none when no record has the identifier, and
   * otherwise exactly the first record that has it, which receives the change.
   */
  lemma {:induction false} UpdateFirstAt(s: seq<Record>, id: string, ch: Change)
    ensures UpdateFirst(s, id, ch) ==
      match FirstIndex(s, id)
      case None => s
      case Some(i) => s[i := Apply(s[i], ch)]
  {
    if s != [] && s[0].id != id {
      UpdateFirstAt(s[1..], id, ch);
    }
  }

  /** An update keeps the length, every identifier, and so the uniqueness of identifiers. */
  lemma UpdateFirstKeepsIds(s: seq<Record>, id: string, ch: Change)
    ensures |UpdateFirst(s, id, ch)| == |s|
    ensures forall j :: 0 <= j < |s| ==> UpdateFirst(s, id, ch)[j].id == s[j].id
    ensures UniqueIds(s) ==> UniqueIds(UpdateFirst(s, id, ch))
  {
    UpdateFirstAt(s, id, ch);
  }

  /** Appending a record whose identifier is new keeps the identifiers unique. */
  lemma AppendKeepsUniqueIds(s: seq<Record>, r: Record)
    requires UniqueIds(s)
    requires forall j :: 0 <= j < |s| ==> s[j].id != r.id
    ensures UniqueIds(s + [r])
  {
  }

  /** The collection as persisted in local storage, shared by the intake page and the dashboard. */
  class Store {
    var records: seq<Record>

    constructor (initial: seq<Record>)
      ensures records == initial
    {
      records := initial;
    }

    /** `records.find(s => s.id === id)`, reported as the position of the record found. */
    method Find(id: string) returns (found: Option<nat>)
      ensures found == FirstIndex(records, id)
    {
      var k := 0;
      while k < |records|
        invariant 0 <= k <= |records|
        invariant forall j :: 0 <= j < k ==> records[j].id != id
      {
        if records[k].id == id {
          return Some(k);
        }
        k := k + 1;
      }
      return None;
    }
  }
}
