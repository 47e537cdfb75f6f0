/**
 * The admin dashboard: first-time setup and login of the single operator, the startup
 * screen choice, the three status lists with their counters and card actions, and the
 * three operations that change the shared collection (reject, approve with a payment
 * link, mark completed).
 */
module Admin {
  import opened Text
  import opened Submissions

  /** What `storeAdminCredentials` keeps: the username, the hex digest of the password, the creation time. */
  datatype Credentials = Credentials(username: string, passwordHash: string, createdAt: string)

  datatype Screen = SetupScreen | LoginScreen | AdminPanel

  /** Result of the setup form, in the order its checks run. */
  datatype SetupOutcome = UsernameTooShort | PasswordTooShort | PasswordMismatch | Created

  /** Result of confirming the payment-link modal. */
  datatype LinkOutcome = LinkRefused | RequestMissing | LinkSaved

  /** The buttons a request card offers. */
  datatype CardAction = SendStripeLink | Reject | MarkCompleted | ContactCustomer | ViewDetails

  const MinUsernameLength := 3
  const MinPasswordLength := 6

  /** The screen shown on page load: setup until credentials exist, then the panel or the login form. */
  function StartupScreen(credentialsExist: bool, loggedInFlag: Option<string>): (s: Screen)
    ensures s == SetupScreen <==> !credentialsExist
    ensures s == AdminPanel <==> credentialsExist && loggedInFlag == Some("true")
    ensures s == LoginScreen <==> credentialsExist && loggedInFlag != Some("true")
  {
    if !credentialsExist then SetupScreen
    else if loggedInFlag == Some("true") then AdminPanel
    else LoginScreen
  }

  /**
   * The setup form's checks: trimmed username of at least 3 code units, then a password of at
   * least 6, then a matching confirmation; the first failing check decides the outcome.
   */
  function CheckSetup(rawUsername: string, password: string, confirm: string): (o: SetupOutcome)
    ensures o == UsernameTooShort <==> Utf16Length(Trim(rawUsername)) < MinUsernameLength
    ensures o == PasswordTooShort <==>
      Utf16Length(Trim(rawUsername)) >= MinUsernameLength && Utf16Length(password) < MinPasswordLength
    ensures o == PasswordMismatch <==>
      Utf16Length(Trim(rawUsername)) >= MinUsernameLength && Utf16Length(password) >= MinPasswordLength
      && password != confirm
    ensures o == Created ==> password == confirm
  {
    if Utf16Length(Trim(rawUsername)) < MinUsernameLength then UsernameTooShort
    else if Utf16Length(password) < MinPasswordLength then PasswordTooShort
    else if password != confirm then PasswordMismatch
    else Created
  }

  /** `verifyAdminCredentials`: false with nothing stored, else whether name and password digest both match. */
  function VerifyCredentials(stored: Option<Credentials>, username: string, password: string,
                             hash: string -> string): (ok: bool)
  {
    match stored
    case None => false
    case Some(c) => c.username == username && c.passwordHash == hash(password)
  }

  /**
   * Logging in succeeds exactly with the stored username and the password that was set up,
   * provided the password tried does not collide with it under the digest (a SHA-256 hex
   * digest has a fixed length, so collisions exist; finding one is what the digest rules out
   * in practice).
   */
  lemma VerifyAfterSetup(username: string, password: string, createdAt: string,
                         hash: string -> string, u: string, p: string)
    requires hash(p) == hash(password) ==> p == password
    ensures VerifyCredentials(Some(Credentials(username, hash(password), createdAt)), u, p, hash)
      <==> u == username && p == password
  {
  }

  /** Nothing stored, nothing verifies. */
  lemma VerifyWithoutCredentials(u: string, p: string, hash: string -> string)
    ensures !VerifyCredentials(None, u, p, hash)
  {
  }

  /** The accepted payment link: non-empty and starting with `https://`. */
  predicate LinkAccepted(link: string)
  {
    link != "" && StartsWith(link, "https://")
  }

  /** The "Options" line of a card: the chosen add-ons joined by `, `, or `Standard` when there are none. */
  function OptionsText(rushOrder: bool, highRes: bool): (t: string)
  {
    var options := (if rushOrder then ["Rush Order"] else []) + (if highRes then ["High Resolution"] else []);
    if |options| > 0 then Join(options, ", ") else "Standard"
  }

  /**
   * The options line is `Standard` exactly when no add-on is chosen; otherwise it starts with
   * `Rush Order` exactly for a rush order and ends with `High Resolution` exactly for high resolution.
   */
  lemma OptionsTextSpec(rushOrder: bool, highRes: bool)
    ensures OptionsText(rushOrder, highRes) ==
      if rushOrder && highRes then "Rush Order, High Resolution"
      else if rushOrder then "Rush Order"
      else if highRes then "High Resolution"
      else "Standard"
    ensures var t := OptionsText(rushOrder, highRes);
      && (t == "Standard" <==> !rushOrder && !highRes)
      && (StartsWith(t, "Rush Order") <==> rushOrder)
      && (highRes <==> |t| >= 15 && t[|t| - 15..] == "High Resolution")
  {
    var t := OptionsText(rushOrder, highRes);
    if rushOrder && highRes {
      assert t == "Rush Order" + ", " + "High Resolution";
    } else if rushOrder {
      assert t == "Rush Order";
    } else if highRes {
      assert t == "High Resolution";
      assert t[0] != "Rush Order"[0];
    } else {
      assert t == "Standard";
      assert t[0] != "Rush Order"[0];
    }
  }

  /** Different add-on choices never show the same options line. */
  lemma OptionsTextInjective(r1: bool, h1: bool, r2: bool, h2: bool)
    requires OptionsText(r1, h1) == OptionsText(r2, h2)
    ensures r1 == r2 && h1 == h2
  {
    OptionsTextSpec(r1, h1);
    OptionsTextSpec(r2, h2);
  }

  /** The buttons of a card in the list of `tab`. */
  function CardActions(tab: Status): (actions: seq<CardAction>)
    ensures SendStripeLink in actions <==> tab == Pending
    ensures Reject in actions <==> tab == Pending
    ensures MarkCompleted in actions <==> tab == InProgress
    ensures ContactCustomer in actions <==> tab == InProgress
    ensures ViewDetails in actions <==> tab != Pending && tab != InProgress
    ensures |actions| == if tab == Pending || tab == InProgress then 2 else 1
  {
    match tab
    case Pending => [SendStripeLink, Reject]
    case InProgress => [MarkCompleted, ContactCustomer]
    case _ => [ViewDetails]
  }

  /** Position of a status in the lifecycle pending, in-progress, completed. */
  function Stage(st: Status): (n: int)
  {
    match st
    case Pending => 0
    case InProgress => 1
    case Completed => 2
    case Other(_) => -1
  }

  /**
   * The change a card button applies to the first record with the card's identifier, if it
   * changes the collection at all: the payment-link button (once a link is accepted) approves,
   * the completion button completes.
   */
  function ActionChange(a: CardAction, link: string, at: string): (ch: Option<Change>)
  {
    match a
    case SendStripeLink => Some(Approve(link, at))
    case MarkCompleted => Some(MarkComplete(at))
    case _ => None
  }

  /** With unique identifiers, the first record carrying a record's identifier is that record. */
  lemma FirstIndexOfOwnId(s: seq<Record>, i: nat)
    requires UniqueIds(s) && i < |s|
    ensures FirstIndex(s, s[i].id) == Some(i)
  {
  }

  /**
   * Although the operations themselves never look at a record's status, in a collection with
   * unique identifiers every status-changing button on a listed card changes exactly that
   * card's record, moving it one stage forward along the lifecycle, and leaves every other
   * record as it was.
   */
  lemma CardActionsAdvance(s: seq<Record>, tab: Status, i: nat, a: CardAction, link: string, at: string)
    requires UniqueIds(s) && i < |s|
    requires s[i] in Filter(s, StatusIs(tab))
    requires a in CardActions(tab)
    requires ActionChange(a, link, at).Some?
    ensures var s' := UpdateFirst(s, s[i].id, ActionChange(a, link, at).value);
      |s'| == |s|
      && s'[i] == Apply(s[i], ActionChange(a, link, at).value)
      && Stage(s'[i].status) == Stage(s[i].status) + 1
      && (forall j :: 0 <= j < |s| && j != i ==> s'[j] == s[j])
  {
    FirstIndexOfOwnId(s, i);
    UpdateFirstAt(s, s[i].id, ActionChange(a, link, at).value);
  }

  /** The dashboard's pending counter. */
  function PendingCount(s: seq<Record>): (n: nat)
  {
    |Filter(s, StatusIs(Pending))|
  }

  /** A record added to the collection lands at the end of the list for its status and nowhere else. */
  lemma ListsAfterAppend(s: seq<Record>, r: Record, st: Status)
    ensures Filter(s + [r], StatusIs(st))
      == Filter(s, StatusIs(st)) + (if r.status == st then [r] else [])
    ensures PendingCount(s + [r]) == PendingCount(s) + (if r.status == Pending then 1 else 0)
  {
    FilterAppend(s, [r], StatusIs(st));
    FilterAppend(s, [r], StatusIs(Pending));
  }

  /** With unique identifiers, rejecting a pending request lowers the pending counter by exactly one. */
  lemma RejectPendingLowersCount(s: seq<Record>, i: nat)
    requires UniqueIds(s) && i < |s| && s[i].status == Pending
    ensures PendingCount(Filter(s, IdIsNot(s[i].id))) == PendingCount(s) - 1
  {
    var id := s[i].id;
    var pending := Filter(s, StatusIs(Pending));
    FilterCommutes(s, IdIsNot(id), StatusIs(Pending));
    FilterKeepsUniqueIds(s, StatusIs(Pending));
    RemovedCount(pending, id);
    assert s[i] in pending;
    var k :| 0 <= k < |pending| && pending[k] == s[i];
    UniqueIdCount(pending, id);
  }

  /** The request number a card shows: `id.split('_')[1]`, absent when the identifier has no `_`. */
  function RequestNumber(id: string): (number: Option<string>)
  {
    var parts := Split(id, '_');
    if |parts| >= 2 then Some(parts[1]) else None
  }

  /** The request number of an identifier made by the intake page is its timestamp, whatever the suffix. */
  lemma {:induction false} RequestNumberOfRequestId(timestamp: nat, suffix: string)
    ensures RequestNumber(RequestId(timestamp, suffix)) == Some(Decimal(timestamp))
  {
    var ts := Decimal(timestamp);
    assert '_' !in ts;
    assert "req_" + ts + "_" + suffix == "req" + ['_'] + (ts + ['_'] + suffix);
    SplitAfterSeparator("req", '_', ts + ['_'] + suffix);
    SplitAfterSeparator(ts, '_', suffix);
  }

  /** Rejecting a request of a collection with unique identifiers removes exactly that one record. */
  lemma RejectRemovesOne(s: seq<Record>, i: nat)
    requires UniqueIds(s) && i < |s|
    ensures |Filter(s, IdIsNot(s[i].id))| == |s| - 1
    ensures forall x :: x in Filter(s, IdIsNot(s[i].id)) ==> x.id != s[i].id
  {
    RemovedCount(s, s[i].id);
    UniqueIdCount(s, s[i].id);
  }

  /**
   * The dashboard page: the operator's credentials and login flag (local storage entries
   * `adminCredentials` and `adminLoggedIn`), the request the payment-link modal was opened for,
   * and the shared collection. `hash` stands for the SHA-256 hex digest of a password.
   */
  class Dashboard {
    const store: Store
    const hash: string -> string
    var credentials: Option<Credentials>
    var loggedInFlag: Option<string>
    var modalRequestId: Option<string>

    constructor (store: Store, hash: string -> string, credentials: Option<Credentials>, loggedInFlag: Option<string>)
      ensures this.store == store && this.hash == hash
      ensures this.credentials == credentials && this.loggedInFlag == loggedInFlag
      ensures modalRequestId == None
    {
      this.store := store;
      this.hash := hash;
      this.credentials := credentials;
      this.loggedInFlag := loggedInFlag;
      modalRequestId := None;
    }

    /** The screen the page shows when it is loaded now. */
    function Startup(): (s: Screen)
      reads this
    {
      StartupScreen(credentials.Some?, loggedInFlag)
    }

    /** `handleSetup`: checks the form, then stores the credentials and logs the operator in. */
    method Setup(rawUsername: string, password: string, confirm: string, now: string) returns (o: SetupOutcome)
      modifies this
      ensures o == CheckSetup(rawUsername, password, confirm)
      ensures o == Created ==>
        credentials == Some(Credentials(Trim(rawUsername), hash(password), now))
        && loggedInFlag == Some("true")
      ensures o != Created ==> credentials == old(credentials) && loggedInFlag == old(loggedInFlag)
      ensures o == Created ==> Startup() == AdminPanel
      ensures modalRequestId == old(modalRequestId)
    {
      var username := Trim(rawUsername);
      if Utf16Length(username) < MinUsernameLength {
        return UsernameTooShort;
      }
      if Utf16Length(password) < MinPasswordLength {
        return PasswordTooShort;
      }
      if password != confirm {
        return PasswordMismatch;
      }
      credentials := Some(Credentials(username, hash(password), now));
      loggedInFlag := Some("true");
      o := Created;
    }

    /** `handleLogin`: on valid credentials the login flag becomes `'true'`. */
    method Login(rawUsername: string, password: string) returns (ok: bool)
      modifies this
      ensures ok == VerifyCredentials(credentials, Trim(rawUsername), password, hash)
      ensures loggedInFlag == if ok then Some("true") else old(loggedInFlag)
      ensures ok ==> Startup() == AdminPanel
      ensures credentials == old(credentials) && modalRequestId == old(modalRequestId)
    {
      var username := Trim(rawUsername);
      ok := VerifyCredentials(credentials, username, password, hash);
      if ok {
        assert credentials.Some?;
        loggedInFlag := Some("true");
      }
    }

    /** `logout`: removes the login flag, so the next load shows the login form. */
    method Logout()
      modifies this
      ensures loggedInFlag == None
      ensures credentials == old(credentials) && modalRequestId == old(modalRequestId)
      ensures credentials.Some? ==> Startup() == LoginScreen
    {
      loggedInFlag := None;
    }

    /** `rejectRequest`: after confirmation, every record with that identifier is removed. */
    method RejectRequest(id: string, confirmed: bool)
      modifies store
      ensures store.records == if confirmed then Filter(old(store.records), IdIsNot(id)) else old(store.records)
      ensures confirmed ==> forall x :: x in store.records ==> x.id != id
    {
      if !confirmed {
        return;
      }
      store.records := Filter(store.records, IdIsNot(id));
    }

    /** `approveRequest`: opens the payment-link modal for the request, if it exists. */
    method ApproveRequest(id: string)
      modifies this
      ensures modalRequestId == if FirstIndex(store.records, id).Some? then Some(id) else old(modalRequestId)
      ensures credentials == old(credentials) && loggedInFlag == old(loggedInFlag)
    {
      var found := store.Find(id);
      if found.None? {
        return;
      }
      modalRequestId := Some(store.records[found.value].id);
    }

    /**
     * `sendStripeLink`: refuses a link that is empty or not `https://`; otherwise the first record
     * with the modal's identifier becomes in-progress with that link and an approval time. The
     * record's current status is not looked at.
     */
    method SendStripeLink(link: string, now: string) returns (o: LinkOutcome)
      modifies store
      ensures o == LinkRefused <==> !LinkAccepted(link)
      ensures !LinkAccepted(link) ==> store.records == old(store.records)
      ensures LinkAccepted(link) && modalRequestId.None? ==>
        o == RequestMissing && store.records == old(store.records)
      ensures LinkAccepted(link) && modalRequestId.Some? ==>
        store.records == UpdateFirst(old(store.records), modalRequestId.value, Approve(link, now))
        && (o == LinkSaved <==> FirstIndex(old(store.records), modalRequestId.value).Some?)
      ensures o == LinkSaved ==>
        var i := FirstIndex(old(store.records), modalRequestId.value).value;
        |store.records| == |old(store.records)|
        && store.records[i].status == InProgress && store.records[i].stripeLink == Some(link)
        && store.records[i].approvedDate == Some(now)
        && (forall j :: 0 <= j < |store.records| && j != i ==> store.records[j] == old(store.records)[j])
      ensures o == RequestMissing ==> store.records == old(store.records)
    {
      if !LinkAccepted(link) {
        return LinkRefused;
      }
      if modalRequestId.None? {
        return RequestMissing;
      }
      ghost var before := store.records;
      UpdateFirstAt(before, modalRequestId.value, Approve(link, now));
      var found := store.Find(modalRequestId.value);
      if found.None? {
        return RequestMissing;
      }
      var i := found.value;
      store.records := store.records[i := Apply(store.records[i], Approve(link, now))];
      o := LinkSaved;
    }

    /**
     * `markCompleted`: the first record with the identifier becomes completed with a completion
     * time, whatever its status was; nothing is written when no record has the identifier.
     */
    method MarkCompletedRequest(id: string, now: string)
      modifies store
      ensures store.records == UpdateFirst(old(store.records), id, MarkComplete(now))
      ensures FirstIndex(old(store.records), id).None? ==> store.records == old(store.records)
      ensures FirstIndex(old(store.records), id).Some? ==>
        var i := FirstIndex(old(store.records), id).value;
        |store.records| == |old(store.records)|
        && store.records[i].status == Completed && store.records[i].completedDate == Some(now)
        && (forall j :: 0 <= j < |store.records| && j != i ==> store.records[j] == old(store.records)[j])
    {
      ghost var before := store.records;
      UpdateFirstAt(before, id, MarkComplete(now));
      var found := store.Find(id);
      if found.None? {
        return;
      }
      var i := found.value;
      store.records := store.records[i := Apply(store.records[i], MarkComplete(now))];
    }
  }
}
