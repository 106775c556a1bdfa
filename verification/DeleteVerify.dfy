/** Confirmed deletion of a cloud VM: delete with retries, then poll until the provider says 404
    (infra/cloud/providers/hetzner.py, infra/cloud/providers/vultr.py, infra/cloud/manager.py,
    application/deallocate_nodes.py). */
module DeleteVerify {
  import opened Prelude

  /** What one API call ends in: a 2xx answer, a 404, another provider error, or any other exception. */
  datatype Reply = Accepted | NotFound | TransientError | PermanentError | OtherException

  datatype Profile = Profile(deleteAttempts: nat, verifyTimeout: real, verifyInterval: real, reconcileAttempts: nat)

  const HETZNER: Profile := Profile(3, 120.0, 5.0, 5)
  const VULTR: Profile := Profile(3, 180.0, 10.0, 10)

  /** The provider during one _delete_and_verify: its replies to the DELETEs and the GETs, and how long each poll took
      in excess of the asked sleep. */
  datatype Api = Api(deletes: nat -> Reply, gets: nat -> Reply, excess: nat -> real)

  datatype Calls = Calls(deletes: nat, polls: nat)

  ghost predicate Valid(profile: Profile, api: Api) {
    profile.deleteAttempts > 0 && profile.verifyInterval >= 1.0 && forall k: nat :: api.excess(k) >= 0.0
  }

  /** A 404 for this VM was received during the call. */
  ghost predicate SawNotFound(api: Api, calls: Calls) {
    (exists k: nat :: k < calls.deletes && api.deletes(k).NotFound?)
    || (exists k: nat :: k < calls.polls && api.gets(k).NotFound?)
  }

  /** Time from the start of the verify phase to the start of poll k. */
  ghost function PollStart(profile: Profile, api: Api, k: nat): real {
    if k == 0 then 0.0 else PollStart(profile, api, k - 1) + profile.verifyInterval + api.excess(k - 1)
  }

  /** The provider answers 404 to a poll that starts before the deadline. */
  ghost predicate PollConfirms(profile: Profile, api: Api) {
    exists k: nat :: PollStart(profile, api, k) < profile.verifyTimeout && api.gets(k).NotFound?
  }

  /** DELETE number k is reached and ends in a 404, or is accepted and a poll confirms. */
  ghost predicate DeleteConfirms(profile: Profile, api: Api, k: nat) {
    && (forall i: nat :: i < k ==> api.deletes(i).TransientError?)
    && (api.deletes(k).NotFound? || (api.deletes(k).Accepted? && PollConfirms(profile, api)))
  }

  /** What the provider has to answer for the VM to count as gone. */
  ghost predicate Confirms(profile: Profile, api: Api) {
    exists k: nat :: k < profile.deleteAttempts && DeleteConfirms(profile, api, k)
  }

  lemma {:induction false} PollStartGrows(profile: Profile, api: Api, j: nat, k: nat)
    requires Valid(profile, api) && j <= k
    ensures PollStart(profile, api, k) >= PollStart(profile, api, j) + (k - j) as real * profile.verifyInterval
  {
    if j < k {
      PollStartGrows(profile, api, j, k - 1);
      assert (k - j) as real * profile.verifyInterval
          == (k - 1 - j) as real * profile.verifyInterval + profile.verifyInterval;
    }
  }

  /** Polling begins and goes on as long as the deadline has not passed and no 404 has come. */
  ghost predicate PollsUntil(profile: Profile, api: Api, polls: nat) {
    && (forall k: nat :: k < polls ==> PollStart(profile, api, k) < profile.verifyTimeout)
    && (PollStart(profile, api, polls) >= profile.verifyTimeout || (polls > 0 && api.gets(polls - 1).NotFound?))
  }

  method VerifyGone(profile: Profile, api: Api) returns (gone: bool, polls: nat)
    requires Valid(profile, api)
    ensures gone <==> PollConfirms(profile, api)
    ensures gone <==> exists k: nat :: k < polls && api.gets(k).NotFound?
    ensures gone ==> api.gets(polls - 1).NotFound?
    ensures PollsUntil(profile, api, polls)
  {
    var now := 0.0;
    polls := 0;
    while now < profile.verifyTimeout
      invariant now == PollStart(profile, api, polls)
      invariant forall k: nat :: k < polls ==> !api.gets(k).NotFound?
      invariant forall k: nat :: k < polls ==> PollStart(profile, api, k) < profile.verifyTimeout
      decreases profile.verifyTimeout - now
    {
      polls := polls + 1;
      if api.gets(polls - 1).NotFound? {
        return true, polls;
      }
      now := now + profile.verifyInterval + api.excess(polls - 1);
    }
    gone := false;
    forall k: nat | PollStart(profile, api, k) < profile.verifyTimeout ensures !api.gets(k).NotFound? {
      if k >= polls {
        PollStartGrows(profile, api, polls, k);
      }
    }
  }

  /** Never an exception. It gives up after a reply that is no cause to retry, after the last attempt, or at the verify
      deadline; the verify phase runs only after an accepted DELETE. */
  method DeleteAndVerify(profile: Profile, api: Api) returns (gone: bool, calls: Calls)
    requires Valid(profile, api)
    ensures gone <==> Confirms(profile, api)
    ensures gone <==> SawNotFound(api, calls)
    ensures 1 <= calls.deletes <= profile.deleteAttempts
    ensures forall k: nat :: k < calls.deletes - 1 ==> api.deletes(k).TransientError?
    ensures match api.deletes(calls.deletes - 1)
            case Accepted => PollsUntil(profile, api, calls.polls)
            case TransientError => calls.polls == 0 && calls.deletes == profile.deleteAttempts
            case _ => calls.polls == 0
  {
    var attempt := 1;
    while true
      invariant 1 <= attempt <= profile.deleteAttempts
      invariant forall k: nat :: k < attempt - 1 ==> api.deletes(k).TransientError?
      decreases profile.deleteAttempts - attempt
    {
      var reply := api.deletes(attempt - 1);
      if reply.NotFound? {
        assert DeleteConfirms(profile, api, attempt - 1);
        return true, Calls(attempt, 0);
      }
      if reply.TransientError? && attempt < profile.deleteAttempts {
        attempt := attempt + 1;
        continue;
      }
      if !reply.Accepted? {
        return false, Calls(attempt, 0);
      }
      break;
    }
    var polls;
    gone, polls := VerifyGone(profile, api);
    calls := Calls(attempt, polls);
    assert gone ==> DeleteConfirms(profile, api, attempt - 1);
  }

  /** The last poll starts before the deadline, and each at least one interval after the one before it. */
  lemma PollsWithinDeadline(profile: Profile, api: Api, polls: nat)
    requires Valid(profile, api) && PollsUntil(profile, api, polls)
    ensures polls > 0 ==> (polls - 1) as real * profile.verifyInterval < profile.verifyTimeout
  {
    if polls > 0 {
      PollStartGrows(profile, api, 0, polls - 1);
    }
  }

  lemma {:induction false} PunctualPolls(profile: Profile, api: Api, k: nat)
    requires forall i: nat :: api.excess(i) == 0.0
    ensures PollStart(profile, api, k) == k as real * profile.verifyInterval
  {
    if k > 0 {
      PunctualPolls(profile, api, k - 1);
      assert k as real * profile.verifyInterval == (k - 1) as real * profile.verifyInterval + profile.verifyInterval;
    }
  }

  /** The sleeps last as long as asked, and no poll is answered 404. */
  ghost predicate Fruitless(api: Api) {
    forall k: nat :: api.excess(k) == 0.0 && !api.gets(k).NotFound?
  }

  /** The budgets: three DELETEs for either provider, 24 GETs for Hetzner and 18 for Vultr, which fruitless polling with
      exact sleeps uses up. */
  lemma Budgets(api: Api, polls: nat)
    ensures Valid(HETZNER, api) && PollsUntil(HETZNER, api, polls) ==> polls <= 24 && (Fruitless(api) ==> polls == 24)
    ensures Valid(VULTR, api) && PollsUntil(VULTR, api, polls) ==> polls <= 18 && (Fruitless(api) ==> polls == 18)
    ensures HETZNER.deleteAttempts == VULTR.deleteAttempts == 3
    ensures HETZNER.reconcileAttempts == 5 && VULTR.reconcileAttempts == 10
  {
    if Fruitless(api) {
      PunctualPolls(HETZNER, api, polls);
      PunctualPolls(VULTR, api, polls);
    }
    if Valid(HETZNER, api) && PollsUntil(HETZNER, api, polls) {
      PollsWithinDeadline(HETZNER, api, polls);
    }
    if Valid(VULTR, api) && PollsUntil(VULTR, api, polls) {
      PollsWithinDeadline(VULTR, api, polls);
    }
  }

  // ---- the best-effort reconcile after an ambiguous create ----

  /** One listing by label: a match, no match, or an exception. */
  datatype Listing = Match | Empty | ListRaises

  /** Phase one of Hetzner's reconcile, and the search of Vultr's: list until a match or until attempts run out. */
  method FindOrphan(attempts: nat, listings: nat -> Listing) returns (found: bool, used: nat)
    ensures used <= attempts
    ensures found <==> exists k: nat :: k < attempts && listings(k).Match?
    ensures found ==> used > 0 && listings(used - 1).Match?
    ensures !found ==> used == attempts
  {
    used := 0;
    while used < attempts
      invariant used <= attempts
      invariant forall k: nat :: k < used ==> !listings(k).Match?
    {
      used := used + 1;
      if listings(used - 1).Match? {
        return true, used;
      }
    }
    found := false;
  }

  /** DELETEs and GETs over all rounds. */
  function TotalDeletes(rounds: seq<Calls>): nat {
    if rounds == [] then 0 else TotalDeletes(rounds[..|rounds| - 1]) + rounds[|rounds| - 1].deletes
  }

  function TotalPolls(rounds: seq<Calls>): nat {
    if rounds == [] then 0 else TotalPolls(rounds[..|rounds| - 1]) + rounds[|rounds| - 1].polls
  }

  /** Hetzner retries delete+verify on the id it found, so a later listing lag cannot make it lose the server: it stops
      with the first round that received a 404 for that id, and gives up only after all its rounds. */
  method ReconcileHetzner(listings: nat -> Listing, apis: nat -> Api)
    returns (found: bool, gone: bool, rounds: seq<Calls>)
    requires forall k: nat :: Valid(HETZNER, apis(k))
    ensures found <==> exists k: nat :: k < HETZNER.reconcileAttempts && listings(k).Match?
    ensures gone <==> found && exists k: nat :: k < HETZNER.reconcileAttempts && Confirms(HETZNER, apis(k))
    ensures gone <==> rounds != [] && SawNotFound(apis(|rounds| - 1), rounds[|rounds| - 1])
    ensures forall k: nat :: k < |rounds| - 1 ==> !SawNotFound(apis(k), rounds[k]) && !Confirms(HETZNER, apis(k))
    ensures if found then 0 < |rounds| <= HETZNER.reconcileAttempts else rounds == []
    ensures found && !gone ==> |rounds| == HETZNER.reconcileAttempts
    ensures TotalDeletes(rounds) <= 3 * |rounds| && TotalPolls(rounds) <= 24 * |rounds|
  {
    var used;
    found, used := FindOrphan(HETZNER.reconcileAttempts, listings);
    gone, rounds := false, [];
    if !found {
      return;
    }
    while |rounds| < HETZNER.reconcileAttempts
      invariant !gone && |rounds| <= HETZNER.reconcileAttempts
      invariant forall k: nat :: k < |rounds| ==> !SawNotFound(apis(k), rounds[k]) && !Confirms(HETZNER, apis(k))
      invariant TotalDeletes(rounds) <= 3 * |rounds| && TotalPolls(rounds) <= 24 * |rounds|
    {
      var calls;
      gone, calls := DeleteAndVerify(HETZNER, apis(|rounds|));
      Budgets(apis(|rounds|), calls.polls);
      rounds := rounds + [calls];
      assert rounds[..|rounds| - 1] + [calls] == rounds;
      if gone {
        return;
      }
    }
  }

  /** Vultr deletes what the first matching listing shows, once. */
  method ReconcileVultr(listings: nat -> Listing, api: Api) returns (found: bool, gone: bool, calls: Calls)
    requires Valid(VULTR, api)
    ensures found <==> exists k: nat :: k < VULTR.reconcileAttempts && listings(k).Match?
    ensures gone <==> found && Confirms(VULTR, api)
    ensures gone <==> found && SawNotFound(api, calls)
    ensures if found then 1 <= calls.deletes <= 3 && calls.polls <= 18 else calls == Calls(0, 0)
  {
    var used;
    found, used := FindOrphan(VULTR.reconcileAttempts, listings);
    gone, calls := false, Calls(0, 0);
    if found {
      gone, calls := DeleteAndVerify(VULTR, api);
      Budgets(api, calls.polls);
    }
  }

  // ---- end to end: deallocate_node on a cloud node whose machine is not BUSY ----

  datatype NodeState = NodeState(hasAdapter: bool, hasConfig: bool, externalId: Option<string>)

  /** clouds.deallocate reaches delete_node. */
  predicate Deletable(node: NodeState) {
    node.hasAdapter && node.hasConfig && node.externalId.Some?
  }

  /** The database's part: disabling and removing the row commit or raise. */
  datatype Database = Database(disableCommits: bool, removeCommits: bool)

  /** delete_node raises when the id does not parse (Hetzner) or when deletion is not confirmed; then the row stays. */
  method DeallocateCloudNode(profile: Profile, node: NodeState, db: Database, idParses: bool, api: Api)
    returns (rowRemoved: bool, called: Option<Calls>)
    requires Valid(profile, api)
    ensures rowRemoved <==> db.disableCommits && db.removeCommits
                            && (Deletable(node) ==> idParses && Confirms(profile, api))
    ensures called.Some? <==> db.disableCommits && Deletable(node) && idParses
    ensures called.Some? ==> (Confirms(profile, api) <==> SawNotFound(api, called.value))
    ensures called.Some? ==> called.value.deletes <= profile.deleteAttempts
                             && (called.value.polls > 0 ==> PollsUntil(profile, api, called.value.polls))
  {
    rowRemoved, called := false, None;
    if !db.disableCommits {
      return;
    }
    if Deletable(node) {
      if !idParses {
        return;
      }
      var gone, calls := DeleteAndVerify(profile, api);
      called := Some(calls);
      if !gone {
        return;
      }
    }
    rowRemoved := db.removeCommits;
  }
}
