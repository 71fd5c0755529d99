/** The authority and one offline installation together: a revocation once seen is permanent. */
module OfflineRevocation {
  import opened Basics
  import Tables
  import opened Server
  import opened CrlLedger
  import opened Revocations
  import I = IssuanceProtocol
  import Offline = OfflineProtocol

  datatype World = World(authority: Tables.State, memory: Offline.Memory)

  /** A step of the authority, or an offline check against the bundle at index `bundle` of those published so far. */
  datatype Event = Authority(step: Step) | Check(call: Offline.Call, bundle: nat)

  ghost function WorldAfter(events: seq<Event>): World {
    if events == [] then World(INITIAL, Offline.FRESH)
    else
      var w := WorldAfter(events[..|events| - 1]);
      match events[|events| - 1]
      case Authority(step) => w.(authority := Next(w.authority, step))
      case Check(call, _) => w.(memory := Offline.VerifyOffline(w.memory, call).0)
  }

  /** The check takes its revoked set and its version from one genuine bundle, whichever; its clock,
      CRL date, age limit, skew and token are arbitrary. */
  ghost predicate Consults(s: Tables.State, call: Offline.Call, bundle: nat) {
    && call.stateful && bundle < |s.bundles|
    && call.revoked == (set p | p in s.bundles[bundle].revoked)
    && call.crlVersion == Some(s.bundles[bundle].version)
  }

  ghost predicate ValidEvents(events: seq<Event>) {
    events != [] ==>
      var init := events[..|events| - 1];
      ValidEvents(init) &&
      match events[|events| - 1]
      case Authority(step) => Enabled(WorldAfter(init).authority, step)
      case Check(call, bundle) => Consults(WorldAfter(init).authority, call, bundle)
  }

  ghost function VerdictAt(events: seq<Event>, i: nat): Offline.Verdict
    requires i < |events| && events[i].Check?
  {
    Offline.VerifyOffline(WorldAfter(events[..i]).memory, events[i].call).1
  }

  /** The authority's own run inside a sequence of events. */
  ghost function StepsOf(events: seq<Event>): seq<Step> {
    if events == [] then []
    else
      var rest := StepsOf(events[..|events| - 1]);
      if events[|events| - 1].Authority? then rest + [events[|events| - 1].step] else rest
  }

  lemma {:induction false} AuthorityRuns(events: seq<Event>)
    requires ValidEvents(events)
    ensures ValidRun(INITIAL, StepsOf(events)) && WorldAfter(events).authority == Run(INITIAL, StepsOf(events))
  {
    if events != [] {
      var init, last := events[..|events| - 1], events[|events| - 1];
      AuthorityRuns(init);
      if last.Authority? {
        var steps := StepsOf(events);
        assert steps[..|steps| - 1] == StepsOf(init) && steps[|steps| - 1] == last.step;
      }
    }
  }

  lemma {:induction false} PrefixValid(events: seq<Event>, i: nat)
    requires ValidEvents(events) && i <= |events|
    ensures ValidEvents(events[..i])
  {
    if i < |events| {
      PrefixValid(events[..|events| - 1], i);
      assert events[..|events| - 1][..i] == events[..i];
    } else {
      assert events[..i] == events;
    }
  }

  ghost predicate AtLeast(v: Option<int>, bound: int) {
    v.Some? && v.value >= bound
  }

  /** Bundles are only added, and the remembered version never goes down. */
  lemma {:induction false} NothingForgotten(events: seq<Event>, i: nat, bound: int)
    requires ValidEvents(events) && i <= |events| && AtLeast(WorldAfter(events[..i]).memory.crlVersion, bound)
    ensures AtLeast(WorldAfter(events).memory.crlVersion, bound)
    ensures WorldAfter(events[..i]).authority.bundles <= WorldAfter(events).authority.bundles
  {
    if i == |events| {
      assert events[..i] == events;
    } else {
      var init, last := events[..|events| - 1], events[|events| - 1];
      assert init[..i] == events[..i];
      NothingForgotten(init, i, bound);
      if last.Authority? {
        OneStepGrows(WorldAfter(init).authority, last.step);
      }
    }
  }

  lemma OneStepGrows(s: Tables.State, step: Step)
    requires Enabled(s, step)
    ensures s.bundles <= Next(s, step).bundles
  {
    assert [step][..0] == [];
    assert Run(s, []) == s && ValidRun(s, []);
    assert ValidRun(s, [step]) && Run(s, [step]) == Next(s, step);
    BundlesOnlyGrow(s, [step]);
  }

  /** The check at `i` got through the hardening. */
  ghost predicate AcceptedAt(events: seq<Event>, i: nat) {
    && i < |events| && events[i].Check? && events[i].call.parsed.Signed?
    && Offline.Harden(WorldAfter(events[..i]).memory, events[i].call).None?
  }

  lemma AcceptedIsRemembered(events: seq<Event>, i: nat)
    requires ValidEvents(events) && AcceptedAt(events, i)
    ensures var s := WorldAfter(events[..i]).authority;
      && Consults(s, events[i].call, events[i].bundle)
      && CrlOk(s)
      && AtLeast(WorldAfter(events[..i + 1]).memory.crlVersion, events[i].bundle + 1)
  {
    var upto := events[..i + 1];
    PrefixValid(events, i + 1);
    PrefixValid(events, i);
    assert upto[..|upto| - 1] == events[..i] && upto[|upto| - 1] == events[i];
    AuthorityRuns(events[..i]);
    CrlRun(StepsOf(events[..i]));
  }

  lemma ConsultsAt(events: seq<Event>, i: nat)
    requires ValidEvents(events) && i < |events| && events[i].Check?
    ensures Consults(WorldAfter(events[..i]).authority, events[i].call, events[i].bundle)
  {
    PrefixValid(events, i + 1);
    var upto := events[..i + 1];
    assert upto[..|upto| - 1] == events[..i] && upto[|upto| - 1] == events[i];
  }

  /** A stateful check of a token its list names is never unlocked. */
  lemma ListedIsLocked(m: Offline.Memory, call: Offline.Call, p: Id)
    requires call.stateful && call.parsed.Signed? && call.parsed.payload.licenseId == Some(p)
    requires Offline.Harden(m, call).None? ==> p in call.revoked
    ensures !Offline.Unlocked(Offline.VerifyOffline(m, call).1)
  {
  }

  /** A later accepted check consults a later list, or the same, and lists are nested. */
  lemma ListedAgain(events: seq<Event>, i: nat, j: nat, p: Id)
    requires ValidEvents(events) && i < j < |events| && AcceptedAt(events, i) && AcceptedAt(events, j)
    requires p in events[i].call.revoked
    ensures p in events[j].call.revoked
  {
    AcceptedIsRemembered(events, i);
    AcceptedIsRemembered(events, j);
    PrefixValid(events, j);
    assert events[..j][..i + 1] == events[..i + 1];
    NothingForgotten(events[..j], i + 1, events[i].bundle + 1);
    BundlesAt(events, i, j);
    NestedAcross(WorldAfter(events[..i]).authority, WorldAfter(events[..j]).authority, events[i], events[j], p);
  }

  lemma NestedAcross(s: Tables.State, s': Tables.State, first: Event, second: Event, p: Id)
    requires first.Check? && second.Check? && s.bundles <= s'.bundles && CrlOk(s')
    requires Consults(s, first.call, first.bundle) && Consults(s', second.call, second.bundle)
    requires second.bundle >= first.bundle && p in first.call.revoked
    ensures p in second.call.revoked
  {
    assert s.bundles[first.bundle] == s'.bundles[first.bundle];
    ListsAreNested(s', first.bundle, second.bundle, p);
  }

  /** Once a check that got through the hardening has consulted a list containing `p`, no later check of a token for
      `p` is unlocked, whatever clock, older bundle or limits it is given and whatever the authority does meanwhile. */
  lemma ListedStaysLocked(events: seq<Event>, i: nat, j: nat, p: Id)
    requires ValidEvents(events) && i < j < |events| && AcceptedAt(events, i) && p in events[i].call.revoked
    requires events[j].Check? && events[j].call.parsed.Signed? && events[j].call.parsed.payload.licenseId == Some(p)
    ensures !Offline.Unlocked(VerdictAt(events, j))
  {
    ConsultsAt(events, j);
    if AcceptedAt(events, j) {
      ListedAgain(events, i, j, p);
    }
    ListedIsLocked(WorldAfter(events[..j]).memory, events[j].call, p);
  }

  lemma BundlesAt(events: seq<Event>, i: nat, j: nat)
    requires ValidEvents(events) && i < j <= |events| && AcceptedAt(events, i)
    ensures WorldAfter(events[..i]).authority.bundles <= WorldAfter(events[..j]).authority.bundles
  {
    AcceptedIsRemembered(events, i);
    PrefixValid(events, j);
    assert events[..j][..i + 1] == events[..i + 1];
    NothingForgotten(events[..j], i + 1, events[i].bundle + 1);
    CheckKeepsBundles(events, i);
  }

  lemma CheckKeepsBundles(events: seq<Event>, i: nat)
    requires ValidEvents(events) && i < |events| && events[i].Check?
    ensures WorldAfter(events[..i + 1]).authority == WorldAfter(events[..i]).authority
  {
    var upto := events[..i + 1];
    assert upto[..|upto| - 1] == events[..i] && upto[|upto| - 1] == events[i];
  }

  /** Offline revocation is permanent end to end: after one `revoked` answer for a licence, no check of any token for
      that licence on the same state file is ever unlocked again. */
  lemma RevokedForGood(events: seq<Event>, i: nat, j: nat)
    requires ValidEvents(events) && i < j < |events| && events[i].Check? && events[j].Check?
    requires VerdictAt(events, i).status == Offline.Revoked
    requires events[j].call.parsed.Signed?
    requires events[j].call.parsed.payload.licenseId == events[i].call.parsed.payload.licenseId
    ensures !Offline.Unlocked(VerdictAt(events, j))
  {
    PrefixValid(events, i + 1);
    var upto := events[..i + 1];
    assert upto[..|upto| - 1] == events[..i] && upto[|upto| - 1] == events[i];
    ListedStaysLocked(events, i, j, events[i].call.parsed.payload.licenseId.value);
  }

  // ----- from the authority's revocation to the installation -----

  lemma AuthorityInOrder(events: seq<Event>)
    requires ValidEvents(events)
    ensures InOrder(WorldAfter(events).authority)
  {
    AuthorityRuns(events);
    LedgerRun(StepsOf(events));
  }

  ghost predicate InOrder(s: Tables.State) {
    TablesOk(s) && LedgerOk(s)
  }

  lemma {:induction false} PublishedInEvents(events: seq<Event>, n: nat, from: nat, p: Id)
    requires ValidEvents(events) && n <= |events| && PublishedFrom(WorldAfter(events[..n]).authority, from, p)
    ensures PublishedFrom(WorldAfter(events).authority, from, p)
  {
    if n == |events| {
      assert events[..n] == events;
    } else {
      var init, last := events[..|events| - 1], events[|events| - 1];
      assert init[..n] == events[..n];
      PublishedInEvents(init, n, from, p);
      AuthorityInOrder(init);
      if last.Authority? {
        PublishedNext(WorldAfter(init).authority, last.step, from, p);
      }
    }
  }

  lemma WorldStep(events: seq<Event>, k: nat)
    requires ValidEvents(events) && k < |events| && events[k].Authority?
    ensures Enabled(WorldAfter(events[..k]).authority, events[k].step)
    ensures WorldAfter(events[..k + 1]).authority == Next(WorldAfter(events[..k]).authority, events[k].step)
  {
    PrefixValid(events, k + 1);
    var upto := events[..k + 1];
    assert upto[..|upto| - 1] == events[..k] && upto[|upto| - 1] == events[k];
  }

  /** The authority revokes an offline licence; later a check that gets through the hardening consults any list
      generated since.  That check, and every check after it on the same state file, is not unlocked for a token of
      that licence. */
  lemma RevocationReachesTheHost(events: seq<Event>, k: nat, l: Id, now: Time, row: Id, i: nat, j: nat)
    requires ValidEvents(events) && k < i <= j < |events| && events[k] == Authority(StepRevoke(l, now, row))
    requires var s := WorldAfter(events[..k]).authority;
      l in s.licenses && s.licenses[l].mode == Tables.Offline && I.Revoke(s, l, now, row).1 == I.Done
    requires AcceptedAt(events, i) && events[i].bundle >= |WorldAfter(events[..k + 1]).authority.bundles|
    requires events[j].Check? && events[j].call.parsed.Signed?
    requires events[j].call.parsed.payload.licenseId == Some(WorldAfter(events[..k]).authority.licenses[l].publicId)
    ensures !Offline.Unlocked(VerdictAt(events, j))
  {
    var p := WorldAfter(events[..k]).authority.licenses[l].publicId;
    RevocationIsConsulted(events, k, l, now, row, i);
    if i == j {
      ConsultsAt(events, j);
      ListedIsLocked(WorldAfter(events[..j]).memory, events[j].call, p);
    } else {
      ListedStaysLocked(events, i, j, p);
    }
  }

  lemma RevocationIsConsulted(events: seq<Event>, k: nat, l: Id, now: Time, row: Id, i: nat)
    requires ValidEvents(events) && k < i < |events| && events[k] == Authority(StepRevoke(l, now, row))
    requires var s := WorldAfter(events[..k]).authority;
      l in s.licenses && s.licenses[l].mode == Tables.Offline && I.Revoke(s, l, now, row).1 == I.Done
    requires AcceptedAt(events, i) && events[i].bundle >= |WorldAfter(events[..k + 1]).authority.bundles|
    ensures WorldAfter(events[..k]).authority.licenses[l].publicId in events[i].call.revoked
  {
    PublishedAt(events, k, l, now, row, i);
    ConsultsAt(events, i);
  }

  lemma PublishedAt(events: seq<Event>, k: nat, l: Id, now: Time, row: Id, i: nat)
    requires ValidEvents(events) && k < i <= |events| && events[k] == Authority(StepRevoke(l, now, row))
    requires var s := WorldAfter(events[..k]).authority;
      l in s.licenses && s.licenses[l].mode == Tables.Offline && I.Revoke(s, l, now, row).1 == I.Done
    ensures PublishedFrom(WorldAfter(events[..i]).authority, |WorldAfter(events[..k + 1]).authority.bundles|,
                          WorldAfter(events[..k]).authority.licenses[l].publicId)
  {
    StartsPublished(events, k, l, now, row);
    PrefixValid(events, i);
    assert events[..i][..k + 1] == events[..k + 1];
    PublishedInEvents(events[..i], k + 1, |WorldAfter(events[..k + 1]).authority.bundles|,
                      WorldAfter(events[..k]).authority.licenses[l].publicId);
  }

  lemma StartsPublished(events: seq<Event>, k: nat, l: Id, now: Time, row: Id)
    requires ValidEvents(events) && k < |events| && events[k] == Authority(StepRevoke(l, now, row))
    requires var s := WorldAfter(events[..k]).authority;
      l in s.licenses && s.licenses[l].mode == Tables.Offline && I.Revoke(s, l, now, row).1 == I.Done
    ensures var s := WorldAfter(events[..k + 1]).authority;
      PublishedFrom(s, |s.bundles|, WorldAfter(events[..k]).authority.licenses[l].publicId)
  {
    PrefixValid(events, k);
    AuthorityInOrder(events[..k]);
    WorldStep(events, k);
    RevokePublishes(WorldAfter(events[..k]).authority, l, now, row);
  }
}
