/** Adding the users of the identity provider to a mailing audience: each address is recorded first and the
    record is taken back if adding fails, so that no crash makes a later run add an address again. */
module ResendSync {
  import opened Events

  const BATCH_SIZE: nat := 100

  /** An empty address stands for a missing one. */
  datatype User = User(email: string)

  function Lower(s: string): string {
    seq(|s|, i requires 0 <= i < |s| => if 'A' <= s[i] <= 'Z' then s[i] - 'A' + 'a' else s[i])
  }

  function Lowered(contacts: seq<string>): set<string> {
    set c | c in contacts :: Lower(c)
  }

  predicate Upper(c: char) {
    'A' <= c <= 'Z'
  }

  /** The same letter in either case, or the same other character. */
  predicate SameLetter(a: char, b: char) {
    a == b || (Upper(a) && b as int == a as int + 32) || (Upper(b) && a as int == b as int + 32)
  }

  /** Two spellings give one address exactly if they differ in the case of letters only, and an address has no
      capital letter and is its own address. */
  lemma AddressIgnoresCase(a: string, b: string)
    ensures Lower(a) == Lower(b) <==> |a| == |b| && forall i :: 0 <= i < |a| ==> SameLetter(a[i], b[i])
    ensures forall i :: 0 <= i < |Lower(a)| ==> !Upper(Lower(a)[i])
    ensures |Lower(a)| == |a| && forall i :: 0 <= i < |a| ==> SameLetter(a[i], Lower(a)[i])
  {
    if |a| == |b| && forall i :: 0 <= i < |a| ==> SameLetter(a[i], b[i]) {
      assert forall i :: 0 <= i < |a| ==> Lower(a)[i] == Lower(b)[i];
    }
    if Lower(a) == Lower(b) {
      assert |Lower(a)| == |a| && |Lower(b)| == |b|;
      forall i | 0 <= i < |a| ensures SameLetter(a[i], b[i]) {
        assert Lower(a)[i] == Lower(b)[i];
      }
    }
  }

  /** How the calls made for one user turn out; a crash may come before or after the effect of a call. */
  datatype MarkResult = Marked | MarkRaises(recorded: bool) | MarkCrash(recorded: bool)
  datatype AddResult = Added | AddRaises | AddCrash(added: bool)
  datatype RemoveResult = Removed | RemoveRaises(removed: bool)
  datatype Fate = Fate(mark: MarkResult, add: AddResult, remove: RemoveResult, crashAfterAdd: bool)

  datatype Stats = Stats(alreadySynced: nat, added: nat, invalid: nat, errors: nat)

  function Total(s: Stats): nat {
    s.alreadySynced + s.added + s.invalid + s.errors
  }

  /** Recording an address either succeeds or leaves no record. */
  predicate Clean(f: Fate) {
    f.mark != MarkRaises(true)
  }

  /** Every call succeeds. */
  predicate Smooth(f: Fate) {
    f.mark == Marked && f.add == Added && !f.crashAfterAdd
  }

  /** A record that could not be written, or an address that could not be added and was taken back. */
  predicate CountsAsError(f: Fate) {
    f.mark.MarkRaises? || (f.mark == Marked && f.add == AddRaises && f.remove == Removed)
  }

  ghost predicate AllClean(fate: (nat, nat) -> Fate) {
    forall p, i :: Clean(fate(p, i))
  }

  ghost predicate AllSmooth(fate: (nat, nat) -> Fate) {
    forall p, i :: Smooth(fate(p, i))
  }

  predicate NoDuplicates(s: seq<string>) {
    forall i, j :: 0 <= i < j < |s| ==> s[i] != s[j]
  }

  /** What one run meets: the contacts found for the backfill and how many of them are recorded before it
      fails, the number of users, the pages of users (none where fetching raises), and the fate of each user by
      page and position. */
  datatype Run = Run(contacts: seq<string>, backfilled: nat, total: nat, page: nat -> Option<seq<User>>,
                     fate: (nat, nat) -> Fate)

  function Addresses(users: seq<User>): seq<string> {
    if users == [] then []
    else
      var last := users[|users| - 1];
      Addresses(users[..|users| - 1]) + if last.email == "" then [] else [Lower(last.email)]
  }

  ghost predicate Loaded(run: Run, pages: nat) {
    forall k :: 0 <= k < pages ==> run.page(k).Some?
  }

  /** The addresses of a page are those of the users that have one, each in lower case, in order. */
  lemma {:induction false} AddressesAreTheUsers(users: seq<User>, i: nat)
    requires i < |users|
    ensures Addresses(users[..i]) <= Addresses(users)
    ensures users[i].email != "" ==>
              |Addresses(users[..i])| < |Addresses(users)|
              && Addresses(users)[|Addresses(users[..i])|] == Lower(users[i].email)
    ensures users[i].email == "" ==> Addresses(users[..i + 1]) == Addresses(users[..i])
    decreases |users|
  {
    var shorter := users[..|users| - 1];
    assert users[..i + 1][..i] == users[..i];
    if i + 1 == |users| {
      assert users[..i + 1] == users;
    } else {
      AddressesAreTheUsers(shorter, i);
      assert shorter[..i] == users[..i];
    }
  }

  /** The addresses on the pages before the offset, in the order they are fetched. */
  ghost function Fetched(run: Run, pages: nat): seq<string>
    requires Loaded(run, pages)
  {
    if pages == 0 then [] else Fetched(run, pages - 1) + Addresses(run.page(pages - 1).value)
  }

  /** How many of the addresses are neither known nor valid. */
  function Rejects(addresses: seq<string>, known: set<string>, valid: string -> bool): nat {
    if addresses == [] then 0
    else
      var last := addresses[|addresses| - 1];
      Rejects(addresses[..|addresses| - 1], known, valid) + if last in known || valid(last) then 0 else 1
  }

  /** The account of a list of addresses: each is counted once, the invalid ones as such; `gained` holds those
      that were added, all valid and new, and `local` what is known afterwards. Without an error every valid
      address is known afterwards. */
  ghost predicate Accounts(before: Stats, after: Stats, addresses: seq<string>, known: set<string>,
                           gained: seq<string>, local: set<string>, valid: string -> bool)
  {
    && Total(after) == Total(before) + |addresses|
    && after.added == before.added + |gained|
    && after.invalid == before.invalid + Rejects(addresses, known, valid)
    && before.errors <= after.errors
    && Addable(gained, known, valid)
    && (forall e :: e in local <==> e in known || e in gained)
    && (after.errors == before.errors ==> forall e :: e in addresses && valid(e) ==> e in local)
  }

  lemma AddressesNext(users: seq<User>, i: nat)
    requires i < |users|
    ensures Addresses(users[..i + 1]) ==
              if users[i].email == "" then Addresses(users[..i]) else Addresses(users[..i]) + [Lower(users[i].email)]
  {
    assert users[..i + 1][..i] == users[..i];
  }

  lemma {:induction false} AccountsJoin(s0: Stats, s1: Stats, s2: Stats, a: seq<string>, b: seq<string>,
                                        known: set<string>, gained: seq<string>, local: set<string>,
                                        more: seq<string>, local': set<string>, valid: string -> bool)
    requires Accounts(s0, s1, a, known, gained, local, valid) && Accounts(s1, s2, b, local, more, local', valid)
    ensures Accounts(s0, s2, a + b, known, gained + more, local', valid)
  {
    RejectsAdd(a, b, known, valid);
    RejectsIgnoresValid(b, known, local, valid);
  }

  /** Addresses that may be added: valid ones that were not known. */
  predicate Addable(gained: seq<string>, known: set<string>, valid: string -> bool) {
    forall e :: e in gained ==> e !in known && valid(e)
  }

  lemma AddableJoin(a: seq<string>, gained: seq<string>, more: seq<string>,
                    known: set<string>, local: set<string>, valid: string -> bool)
    requires Addable(gained, known, valid) && Addable(more, local, valid) && known <= local
    ensures Addable(gained + more, known, valid) && (a + gained) + more == a + (gained + more)
  {
  }

  lemma {:induction false} RejectsAdd(a: seq<string>, b: seq<string>, known: set<string>, valid: string -> bool)
    ensures Rejects(a + b, known, valid) == Rejects(a, known, valid) + Rejects(b, known, valid)
  {
    if b == [] {
      assert a + b == a;
    } else {
      assert (a + b)[..|a + b| - 1] == a + b[..|b| - 1];
      RejectsAdd(a, b[..|b| - 1], known, valid);
    }
  }

  /** Learning valid addresses does not change which ones are rejected. */
  lemma {:induction false} RejectsIgnoresValid(s: seq<string>, known: set<string>, more: set<string>,
                                               valid: string -> bool)
    requires known <= more && forall e :: e in more && e !in known ==> valid(e)
    ensures Rejects(s, known, valid) == Rejects(s, more, valid)
  {
    if s != [] {
      RejectsIgnoresValid(s[..|s| - 1], known, more, valid);
    }
  }

  lemma FetchedNext(run: Run, pages: nat)
    requires Loaded(run, pages) && run.page(pages).Some?
    ensures Loaded(run, pages + 1)
    ensures Fetched(run, pages + 1) == Fetched(run, pages) + Addresses(run.page(pages).value)
  {
  }

  class SyncJob {
    /** The tracking table of the audience. */
    var tracked: set<string>
    /** Every successful addition to the audience so far. */
    var additions: seq<string>

    ghost predicate Valid()
      reads this
    {
      NoDuplicates(additions) && forall e :: e in additions ==> e in tracked
    }

    constructor (table: set<string>)
      ensures Valid() && additions == [] && tracked == table
    {
      tracked, additions := table, [];
    }

    /** Records the contacts that are not recorded yet, until one record cannot be written. */
    method Backfill(contacts: seq<string>, upTo: nat)
      requires Valid()
      modifies this`tracked
      ensures Valid() && old(tracked) <= tracked <= old(tracked) + Lowered(contacts)
      ensures upTo >= |contacts| ==> tracked == old(tracked) + Lowered(contacts)
    {
      for i := 0 to |contacts|
        invariant tracked == old(tracked) + Lowered(contacts[..i])
      {
        assert Lowered(contacts[..i + 1]) == Lowered(contacts[..i]) + {Lower(contacts[i])};
        if i >= upTo {
          return;
        }
        if Lower(contacts[i]) !in tracked {
          tracked := tracked + {Lower(contacts[i])};
        }
      }
      assert contacts[..|contacts|] == contacts;
    }

    /** `local` is what a run believes to be synced: it covers every addition and is covered by the table. */
    ghost predicate Covers(local: set<string>)
      reads this
    {
      Valid() && local <= tracked && forall e :: e in additions ==> e in local
    }

    /** The calls for one valid address that the run has not seen as synced. */
    method AddUser(email: string, fate: Fate, ghost local: set<string>) returns (crashed: bool, added: bool)
      requires Covers(local) && email !in local
      modifies this
      ensures Valid() && local <= tracked && (added ==> email in tracked)
      ensures additions == old(additions) || additions == old(additions) + [email]
      ensures added <==> fate.mark == Marked && fate.add == Added
      ensures !added && !crashed <==> CountsAsError(fate)
      ensures added && crashed <==> fate.mark == Marked && fate.add == Added && fate.crashAfterAdd
      ensures !crashed ==> additions == if added then old(additions) + [email] else old(additions)
      ensures !crashed && email !in old(tracked) ==>
                (Clean(fate) <==> tracked == if added then old(tracked) + {email} else old(tracked))
    {
      match fate.mark
      case MarkRaises(recorded) =>
        if recorded { tracked := tracked + {email}; }
        return false, false;
      case MarkCrash(recorded) =>
        if recorded { tracked := tracked + {email}; }
        return true, false;
      case Marked =>
      tracked := tracked + {email};
      match fate.add
      case AddCrash(done) =>
        if done { additions := additions + [email]; }
        return true, false;
      case AddRaises =>
        match fate.remove {
          case Removed =>
            tracked := tracked - {email};
            return false, false;
          case RemoveRaises(removed) =>
            if removed { tracked := tracked - {email}; }
            return true, false;
        }
      case Added =>
        additions := additions + [email];
        return fate.crashAfterAdd, true;
    }

    method ProcessUser(email: string, fate: Fate, valid: string -> bool, local0: set<string>, stats0: Stats)
      returns (crashed: bool, stats: Stats, local: set<string>, ghost gained: seq<string>)
      requires Covers(local0)
      modifies this
      ensures Valid() && additions == old(additions) + gained && local0 <= local <= tracked
      ensures Addable(gained, local0, valid) && (gained == [] || gained == [email])
      ensures !crashed ==> Covers(local) && Accounts(stats0, stats, [email], local0, gained, local, valid)
      ensures Smooth(fate) ==> !crashed && stats.errors == stats0.errors
      ensures !crashed && Clean(fate) && local0 == old(tracked) ==> local == tracked
    {
      crashed, stats, local, gained := false, stats0, local0, [];
      if email in local {
        stats := stats.(alreadySynced := stats.alreadySynced + 1);
        return;
      }
      if !valid(email) {
        stats := stats.(invalid := stats.invalid + 1);
        return;
      }
      var added;
      crashed, added := AddUser(email, fate, local);
      if crashed {
        gained := if additions == old(additions) then [] else [email];
        return;
      }
      if added {
        local := local + {email};
        gained := [email];
        stats := stats.(added := stats.added + 1);
      } else {
        stats := stats.(errors := stats.errors + 1);
      }
    }

    method ProcessPage(users: seq<User>, page: nat, fate: (nat, nat) -> Fate, valid: string -> bool,
                       local0: set<string>, stats0: Stats)
      returns (crashed: bool, stats: Stats, local: set<string>, ghost gained: seq<string>)
      requires Covers(local0)
      modifies this
      ensures Valid() && additions == old(additions) + gained && local0 <= local <= tracked
      ensures Addable(gained, local0, valid)
      ensures !crashed ==> Covers(local) && Accounts(stats0, stats, Addresses(users), local0, gained, local, valid)
      ensures AllSmooth(fate) ==> !crashed && stats.errors == stats0.errors
      ensures !crashed && AllClean(fate) && local0 == old(tracked) ==> local == tracked
    {
      crashed, stats, local, gained := false, stats0, local0, [];
      assert Accounts(stats0, stats, [], local0, gained, local, valid);
      assert Valid();
      hide Accounts, Addable, Lower, Valid, Covers, Smooth, Clean;
      for i := 0 to |users|
        invariant Valid() && Covers(local) && !crashed && local0 <= local <= tracked
        invariant additions == old(additions) + gained
        invariant Addable(gained, local0, valid)
        invariant Accounts(stats0, stats, Addresses(users[..i]), local0, gained, local, valid)
        invariant AllSmooth(fate) ==> stats.errors == stats0.errors
        invariant AllClean(fate) && local0 == old(tracked) ==> local == tracked
      {
        AddressesNext(users, i);
        if users[i].email == "" {
          continue;
        }
        ghost var s, l, g := stats, local, gained;
        ghost var more;
        var email := Lower(users[i].email);
        crashed, stats, local, more := ProcessUser(email, fate(page, i), valid, local, stats);
        AddableJoin(old(additions), g, more, local0, l, valid);
        gained := g + more;
        if crashed {
          return;
        }
        AccountsJoin(stats0, s, stats, Addresses(users[..i]), [email], local0, g, l, more, local, valid);
      }
      assert users[..|users|] == users;
    }

    /** One run, which may end early at any call. Nothing is added that was recorded before the run, and a run
        that completes accounts for every address it fetched. */
    method SyncUsersToResend(run: Run, valid: string -> bool)
      returns (completed: bool, stats: Stats, local: set<string>, pages: nat,
               ghost known: set<string>, ghost gained: seq<string>)
      requires Valid()
      modifies this
      ensures Valid() && additions == old(additions) + gained && known <= tracked
      ensures Addable(gained, known, valid)
      ensures old(tracked) <= known <= old(tracked) + Lowered(run.contacts)
      ensures run.backfilled >= |run.contacts| ==> known == old(tracked) + Lowered(run.contacts)
      ensures Loaded(run, pages)
      ensures completed ==> pages * BATCH_SIZE >= run.total && (pages == 0 || (pages - 1) * BATCH_SIZE < run.total)
      ensures completed ==>
                Accounts(Stats(0, 0, 0, 0), stats, Fetched(run, pages), known, gained, local, valid)
      ensures completed ==> Covers(local)
      ensures completed && AllClean(run.fate) ==> local == tracked
      ensures (forall k :: run.page(k).Some?) && AllSmooth(run.fate) ==> completed && stats.errors == 0
    {
      Backfill(run.contacts, run.backfilled);
      completed, stats, local, pages, known, gained := false, Stats(0, 0, 0, 0), tracked, 0, tracked, [];
      assert Accounts(Stats(0, 0, 0, 0), stats, Fetched(run, pages), known, gained, local, valid);
      assert Covers(local);
      hide Accounts, Addable, Addresses, Lower, Lowered, Valid, Covers, Loaded, Fetched, AllClean, AllSmooth;
      var offset := 0;
      while offset < run.total
        invariant Valid() && Covers(local) && additions == old(additions) + gained && known <= local <= tracked
        invariant Addable(gained, known, valid)
        invariant offset == pages * BATCH_SIZE && (pages == 0 || (pages - 1) * BATCH_SIZE < run.total)
        invariant Loaded(run, pages)
        invariant Accounts(Stats(0, 0, 0, 0), stats, Fetched(run, pages), known, gained, local, valid)
        invariant AllSmooth(run.fate) ==> stats.errors == 0
        invariant AllClean(run.fate) ==> local == tracked
        decreases run.total - offset
      {
        var users := run.page(pages);
        if users.None? {
          return;
        }
        ghost var s, l, g := stats, local, gained;
        ghost var more;
        var crashed;
        crashed, stats, local, more := ProcessPage(users.value, pages, run.fate, valid, local, stats);
        AddableJoin(old(additions), g, more, known, l, valid);
        gained := g + more;
        if crashed {
          return;
        }
        AccountsJoin(Stats(0, 0, 0, 0), s, stats, Fetched(run, pages), Addresses(users.value),
                     known, g, l, more, local, valid);
        FetchedNext(run, pages);
        pages := pages + 1;
        offset := offset + BATCH_SIZE;
      }
      completed := true;
    }
  }

  /** Over any sequence of runs, wherever each of them crashes, no address is added twice, nor one that the
      tracking table held at the start, whether or not the audience still has it. */
  method SyncRepeatedly(table: set<string>, runs: seq<Run>, valid: string -> bool) returns (additions: seq<string>)
    ensures NoDuplicates(additions)
    ensures forall e :: e in additions ==> e !in table && valid(e)
  {
    var job := new SyncJob(table);
    for i := 0 to |runs|
      invariant job.Valid() && fresh(job) && table <= job.tracked
      invariant forall e :: e in job.additions ==> e !in table && valid(e)
    {
      var _, _, _, _, _, _ := job.SyncUsersToResend(runs[i], valid);
    }
    additions := job.additions;
  }
}
