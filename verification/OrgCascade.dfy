/** Deleting an organization with everything it owns, in one transaction. */
module OrgCascade {
  import opened Events

  datatype Member = Member(user: string, org: string)

  /** For each row of a table that carries an organization, that organization. */
  type OrgTable = map<string, Option<string>>

  datatype Owned = Owned(billing: OrgTable, secrets: OrgTable, apiKeys: OrgTable, slackConversations: OrgTable,
                         slackUsers: OrgTable, stripeCustomers: OrgTable)

  /** The tables the cascade touches. A conversation belongs to the organization its `ownership` row names. */
  datatype Tables = Tables(orgs: set<string>, currentOrg: map<string, string>, members: set<Member>,
                           ownership: map<string, string>, metadata: set<string>,
                           startTasks: map<string, Option<string>>, owned: Owned)

  function OwnedBy(t: Tables, org: string): set<string> {
    set c | c in t.ownership && t.ownership[c] == org
  }

  function WithoutOrg(rows: OrgTable, org: string): OrgTable {
    map r | r in rows && rows[r] != Some(org) :: rows[r]
  }

  function OwnedWithoutOrg(o: Owned, org: string): Owned {
    Owned(WithoutOrg(o.billing, org), WithoutOrg(o.secrets, org), WithoutOrg(o.apiKeys, org),
          WithoutOrg(o.slackConversations, org), WithoutOrg(o.slackUsers, org), WithoutOrg(o.stripeCustomers, org))
  }

  function StartTasksWithoutOrg(t: Tables, org: string): map<string, Option<string>> {
    map s | s in t.startTasks && !(t.startTasks[s].Some? && t.startTasks[s].value in OwnedBy(t, org)) :: t.startTasks[s]
  }

  predicate HasAlternative(members: set<Member>, user: string, org: string) {
    exists m :: m in members && m.user == user && m.org != org
  }

  /** Users whose current organization is deleted and who have no other. */
  function Orphans(t: Tables, org: string): set<string> {
    set u | u in t.currentOrg && t.currentOrg[u] == org && !HasAlternative(t.members, u, org)
  }

  /** Every user's current organization is one of that user's memberships. */
  predicate MembershipsValid(t: Tables) {
    forall u :: u in t.currentOrg ==> Member(u, t.currentOrg[u]) in t.members
  }

  /** The committed effect. Which alternative a user gets is open, and the organization's own row stays:
      its deletion is requested but never awaited. */
  ghost predicate Cascaded(before: Tables, after: Tables, org: string) {
    && after.orgs == before.orgs
    && after.metadata == before.metadata - OwnedBy(before, org)
    && after.startTasks == StartTasksWithoutOrg(before, org)
    && after.ownership == before.ownership - OwnedBy(before, org)
    && after.owned == OwnedWithoutOrg(before.owned, org)
    && after.members == (set m | m in before.members && m.org != org)
    && after.currentOrg.Keys == before.currentOrg.Keys
    && (forall u :: u in before.currentOrg ==>
          if before.currentOrg[u] != org then after.currentOrg[u] == before.currentOrg[u]
          else after.currentOrg[u] != org && Member(u, after.currentOrg[u]) in before.members)
  }

  /** What a table looks like without the rows of the organization: these are gone, all others are as they were. */
  predicate LosesOnly(before: OrgTable, after: OrgTable, org: string) {
    && (forall r :: r in before && before[r] != Some(org) ==> r in after && after[r] == before[r])
    && (forall r :: r in after ==> r in before && before[r] != Some(org))
  }

  /** A conversation that belongs to the organization. */
  predicate Belongs(t: Tables, conversation: string, org: string) {
    conversation in t.ownership && t.ownership[conversation] == org
  }

  predicate OwnedLosesOnly(before: Owned, after: Owned, org: string) {
    && LosesOnly(before.billing, after.billing, org)
    && LosesOnly(before.secrets, after.secrets, org)
    && LosesOnly(before.apiKeys, after.apiKeys, org)
    && LosesOnly(before.slackConversations, after.slackConversations, org)
    && LosesOnly(before.slackUsers, after.slackUsers, org)
    && LosesOnly(before.stripeCustomers, after.stripeCustomers, org)
  }

  /** Gone are the ownership rows of the organization, and the metadata and start tasks of their conversations. */
  ghost predicate ConversationsLoseOnly(before: Tables, after: Tables, org: string) {
    && (forall c :: c in after.metadata <==> c in before.metadata && !Belongs(before, c, org))
    && (forall c :: c in after.ownership <==> c in before.ownership && !Belongs(before, c, org))
    && (forall c :: c in after.ownership ==> after.ownership[c] == before.ownership[c])
    && (forall s :: s in after.startTasks <==>
          s in before.startTasks && (before.startTasks[s].None? || !Belongs(before, before.startTasks[s].value, org)))
    && (forall s :: s in after.startTasks ==> after.startTasks[s] == before.startTasks[s])
  }

  /** The effect row by row. */
  ghost predicate RowByRow(before: Tables, after: Tables, org: string) {
    && OwnedLosesOnly(before.owned, after.owned, org)
    && ConversationsLoseOnly(before, after, org)
    && (forall m :: m in after.members <==> m in before.members && m.org != org)
  }

  lemma WithoutOrgLosesOnly(rows: OrgTable, org: string)
    ensures LosesOnly(rows, WithoutOrg(rows, org), org)
  {
  }

  lemma OwnedWithoutOrgLosesOnly(o: Owned, org: string)
    ensures OwnedLosesOnly(o, OwnedWithoutOrg(o, org), org)
  {
    hide LosesOnly, WithoutOrg;
    WithoutOrgLosesOnly(o.billing, org);
    WithoutOrgLosesOnly(o.secrets, org);
    WithoutOrgLosesOnly(o.apiKeys, org);
    WithoutOrgLosesOnly(o.slackConversations, org);
    WithoutOrgLosesOnly(o.slackUsers, org);
    WithoutOrgLosesOnly(o.stripeCustomers, org);
  }

  lemma ConversationsGo(before: Tables, after: Tables, org: string)
    requires after.metadata == before.metadata - OwnedBy(before, org)
    requires after.startTasks == StartTasksWithoutOrg(before, org)
    requires after.ownership == before.ownership - OwnedBy(before, org)
    ensures ConversationsLoseOnly(before, after, org)
  {
    assert forall c :: c in OwnedBy(before, org) <==> Belongs(before, c, org);
    hide OwnedBy, Belongs;
  }

  /** Some user of the organization is a member of nothing else. */
  ghost predicate SomeoneOrphaned(t: Tables, org: string) {
    exists u :: u in t.currentOrg && t.currentOrg[u] == org
                && forall m :: m in t.members && m.user == u ==> m.org == org
  }

  lemma OrphansAreOrphaned(t: Tables, org: string)
    ensures Orphans(t, org) != {} <==> SomeoneOrphaned(t, org)
  {
    if u :| u in t.currentOrg && t.currentOrg[u] == org && forall m :: m in t.members && m.user == u ==> m.org == org {
      assert u in Orphans(t, org);
    }
  }

  /** Every row of every table: gone if it belongs to the organization, otherwise untouched. */
  lemma CascadeIsRowByRow(before: Tables, after: Tables, org: string)
    requires Cascaded(before, after, org)
    ensures RowByRow(before, after, org)
  {
    OwnedWithoutOrgLosesOnly(before.owned, org);
    ConversationsGo(before, after, org);
    hide OwnedLosesOnly, ConversationsLoseOnly, OwnedWithoutOrg, StartTasksWithoutOrg, OwnedBy;
  }

  lemma CascadeKeepsMembershipsValid(before: Tables, after: Tables, org: string)
    requires Cascaded(before, after, org) && MembershipsValid(before)
    ensures MembershipsValid(after)
    ensures forall m :: m in after.members ==> m.org != org
    ensures forall u :: u in after.currentOrg ==> after.currentOrg[u] != org
  {
  }

  /** No row that belonged to the organization is left, directly or through a conversation, and no row of
      another organization is gone. */
  lemma CascadeRemovesExactlyTheOrg(before: Tables, after: Tables, org: string)
    requires Cascaded(before, after, org)
    ensures OwnedBy(after, org) == {} && after.metadata * OwnedBy(before, org) == {}
    ensures OwnedWithoutOrg(after.owned, org) == after.owned
    ensures forall s :: s in after.startTasks && after.startTasks[s].Some? ==>
              after.startTasks[s].value !in OwnedBy(before, org)
    ensures forall other :: other != org ==> OwnedBy(after, other) == OwnedBy(before, other)
    ensures forall other :: other != org ==> before.metadata * OwnedBy(before, other) <= after.metadata
    ensures forall m :: m in before.members && m.org != org ==> m in after.members
  {
    forall other | other != org ensures OwnedBy(after, other) == OwnedBy(before, other) {
      assert OwnedBy(before, org) * OwnedBy(before, other) == {};
    }
  }

  /** A second cascade for the same organization finds its row still there and changes nothing. */
  lemma CascadeIsIdempotent(before: Tables, after: Tables, again: Tables, org: string)
    requires Cascaded(before, after, org) && Cascaded(after, again, org)
    ensures again == after
  {
    assert OwnedBy(after, org) == {};
    assert after.ownership - {} == after.ownership;
  }

  /** The metadata rows are found through the ownership rows: deleted in the other order, all of them stay. */
  lemma OwnershipFirstLosesTheMetadata(t: Tables, org: string)
    ensures t.metadata - OwnedBy(t.(ownership := t.ownership - OwnedBy(t, org)), org) == t.metadata
  {
  }

  // ---- the transaction ----

  datatype Outcome = NotFound | Deleted | Orphaned(users: set<string>) | Failed

  class OrgDatabase {
    var orgs: set<string>
    var currentOrg: map<string, string>
    var members: set<Member>
    var ownership: map<string, string>
    var metadata: set<string>
    var startTasks: map<string, Option<string>>
    var owned: Owned

    function Content(): Tables
      reads this
    {
      Tables(orgs, currentOrg, members, ownership, metadata, startTasks, owned)
    }

    method Rollback(saved: Tables)
      modifies this
      ensures Content() == saved
    {
      orgs, currentOrg, members := saved.orgs, saved.currentOrg, saved.members;
      ownership, metadata, startTasks, owned := saved.ownership, saved.metadata, saved.startTasks, saved.owned;
    }

    method DeleteOwnedRows(org: string, failing: nat) returns (done: bool)
      modifies this`metadata, this`startTasks, this`ownership, this`owned
      ensures done <==> !(1 <= failing <= 9)
      ensures done ==> metadata == old(metadata) - OwnedBy(old(Content()), org)
      ensures done ==> startTasks == StartTasksWithoutOrg(old(Content()), org)
      ensures done ==> ownership == old(ownership) - OwnedBy(old(Content()), org)
      ensures done ==> owned == OwnedWithoutOrg(old(owned), org)
      ensures done ==> OwnedLosesOnly(old(owned), owned, org) && ConversationsLoseOnly(old(Content()), Content(), org)
    {
      hide OwnedLosesOnly, ConversationsLoseOnly, LosesOnly, WithoutOrg;
      if failing == 1 { return false; }
      metadata := metadata - OwnedBy(Content(), org);
      if failing == 2 { return false; }
      startTasks := StartTasksWithoutOrg(Content(), org);
      if failing == 3 { return false; }
      owned := owned.(billing := WithoutOrg(owned.billing, org));
      if failing == 4 { return false; }
      ownership := ownership - OwnedBy(Content(), org);
      if failing == 5 { return false; }
      owned := owned.(secrets := WithoutOrg(owned.secrets, org));
      if failing == 6 { return false; }
      owned := owned.(apiKeys := WithoutOrg(owned.apiKeys, org));
      if failing == 7 { return false; }
      owned := owned.(slackConversations := WithoutOrg(owned.slackConversations, org));
      if failing == 8 { return false; }
      owned := owned.(slackUsers := WithoutOrg(owned.slackUsers, org));
      if failing == 9 { return false; }
      owned := owned.(stripeCustomers := WithoutOrg(owned.stripeCustomers, org));
      assert owned == OwnedWithoutOrg(old(owned), org);
      OwnedWithoutOrgLosesOnly(old(owned), org);
      ConversationsGo(old(Content()), Content(), org);
      return true;
    }

    /** Gives every user of the organization some other organization of theirs. */
    method Reassign(org: string)
      requires Orphans(Content(), org) == {}
      modifies this`currentOrg
      ensures currentOrg.Keys == old(currentOrg).Keys
      ensures forall u :: u in currentOrg ==>
                if old(currentOrg)[u] != org then currentOrg[u] == old(currentOrg)[u]
                else currentOrg[u] != org && Member(u, currentOrg[u]) in members
    {
      var todo := set u | u in currentOrg && currentOrg[u] == org;
      while todo != {}
        invariant todo <= old(currentOrg).Keys && currentOrg.Keys == old(currentOrg).Keys
        invariant forall u :: u in todo ==> old(currentOrg)[u] == org
        invariant forall u :: u in currentOrg ==>
                    if old(currentOrg)[u] != org then currentOrg[u] == old(currentOrg)[u]
                    else u in todo || (currentOrg[u] != org && Member(u, currentOrg[u]) in members)
        decreases |todo|
      {
        var u :| u in todo;
        assert u !in Orphans(old(Content()), org);
        var m :| m in members && m.user == u && m.org != org;
        currentOrg := currentOrg[u := m.org];
        todo := todo - {u};
      }
    }

    /** `failing` is the number of the statement that raises, if any: 1 to 9 delete rows, 10 looks for orphans,
        11 reassigns users, 12 deletes memberships, 13 deletes the LiteLLM team and 14 commits. Either the
        whole cascade is committed or the tables are as before. */
    method DeleteOrgCascade(org: string, failing: nat) returns (r: Outcome)
      modifies this
      ensures r.NotFound? <==> org !in old(orgs)
      ensures r.Deleted? <==> org in old(orgs) && Orphans(old(Content()), org) == {} && !(1 <= failing <= 14)
      ensures r.Deleted? ==> Cascaded(old(Content()), Content(), org) && RowByRow(old(Content()), Content(), org)
      ensures r.Orphaned? ==> SomeoneOrphaned(old(Content()), org)
      ensures org in old(orgs) && failing == 0 ==> (r.Deleted? <==> !SomeoneOrphaned(old(Content()), org))
      ensures !r.Deleted? ==> Content() == old(Content())
      ensures r.Orphaned? ==> r.users == Orphans(old(Content()), org) && r.users != {}
      ensures org in old(orgs) && Orphans(old(Content()), org) != {} && !(1 <= failing <= 10) ==> r.Orphaned?
    {
      if org !in orgs {
        return NotFound;
      }
      var saved := Content();
      OrphansAreOrphaned(saved, org);
      r := Attempt(org, failing);
      if !r.Deleted? {
        Rollback(saved);
      } else {
        CascadeIsRowByRow(saved, Content(), org);
      }
    }

    method Attempt(org: string, failing: nat) returns (r: Outcome)
      modifies this
      ensures !r.NotFound?
      ensures r.Deleted? <==> Orphans(old(Content()), org) == {} && !(1 <= failing <= 14)
      ensures r.Deleted? ==> Cascaded(old(Content()), Content(), org)
      ensures r.Orphaned? <==> Orphans(old(Content()), org) != {} && !(1 <= failing <= 10)
      ensures r.Orphaned? ==> r.users == Orphans(old(Content()), org)
    {
      ghost var before := Content();
      var done := DeleteOwnedRows(org, failing);
      if !done || failing == 10 { return Failed; }
      var orphans := Orphans(Content(), org);
      assert orphans == Orphans(before, org);
      if orphans != {} { return Orphaned(orphans); }
      if failing == 11 { return Failed; }
      Reassign(org);
      if failing == 12 { return Failed; }
      members := set m | m in members && m.org != org;
      if failing == 13 || failing == 14 { return Failed; }
      return Deleted;
    }
  }
}
