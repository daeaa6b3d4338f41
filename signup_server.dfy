/** The signup service of server.js as an object: the fixed Steam key pool,
    the cursor `keyIndex` and the `alphaTesters` list, updated in place by
    the signup handler exactly as the value-level model in SignupSpec says. */
module SignupServer {
  import opened SignupSpec

  /** `alphaTesters.find(tester => tester.email === email)`: the first tester
      registered under exactly this email, if any. */
  method FindByEmail(testers: seq<Tester>, email: string) returns (found: Option<Tester>)
    ensures found.None? <==> !EmailTaken(testers, email)
    ensures found.Some? ==>
      exists k :: 0 <= k < |testers| && testers[k] == found.value && testers[k].email == email
        && forall j :: 0 <= j < k ==> testers[j].email != email
  {
    var i := 0;
    while i < |testers|
      invariant 0 <= i <= |testers|
      invariant forall j :: 0 <= j < i ==> testers[j].email != email
    {
      if testers[i].email == email {
        return Some(testers[i]);
      }
      i := i + 1;
    }
    return None;
  }

  class SignupService {
    const steamKeys: seq<string>
    var keyIndex: nat
    var alphaTesters: seq<Tester>

    /** The state as a SignupSpec value. */
    function Snapshot(): Store
      reads this
    {
      Store(steamKeys, keyIndex, alphaTesters)
    }

    predicate Valid()
      reads this
    {
      SignupSpec.Valid(Snapshot())
    }

    /** Process start: the configured pool, the cursor at 0, no testers. */
    constructor (keys: seq<string>)
      ensures Snapshot() == Initial(keys)
      ensures (forall i :: 0 <= i < |keys| ==> keys[i] != "") ==> Valid()
    {
      steamKeys := keys;
      keyIndex := 0;
      alphaTesters := [];
    }

    /** getNextSteamKey */
    method GetNextSteamKey() returns (key: Option<string>)
      modifies this`keyIndex
      ensures old(keyIndex) >= |steamKeys| ==> key.None? && keyIndex == old(keyIndex)
      ensures old(keyIndex) < |steamKeys| ==>
        key == Some(steamKeys[old(keyIndex)]) && keyIndex == old(keyIndex) + 1
      ensures Allocation(key, Snapshot()) == NextKey(old(Snapshot()))
    {
      if keyIndex >= |steamKeys| {
        return None;
      }
      key := Some(steamKeys[keyIndex]);
      keyIndex := keyIndex + 1;
    }

    /** POST /api/alpha-signup. The mail outcome is decided by the transport,
        so it comes in as `mailDelivered`; `signupDate` is the clock reading. */
    method Signup(name: string, email: string, experience: string,
                  signupDate: string, mailDelivered: bool) returns (status: int)
      modifies this
      ensures Reply(status, Snapshot()) ==
        SignupSpec.Signup(old(Snapshot()), SignupCall(name, email, experience, signupDate, mailDelivered))
      ensures old(Valid()) ==> Valid()
    {
      ghost var before := Snapshot();
      ghost var call := SignupCall(name, email, experience, signupDate, mailDelivered);
      if SignupSpec.Valid(before) {
        SignupPreservesValid(before, call);
      }
      if name == "" || email == "" {
        return BadRequest;
      }
      var existing := FindByEmail(alphaTesters, email);
      if existing.Some? {
        return Conflict;
      }
      var steamKey := GetNextSteamKey();
      if steamKey.None? || steamKey.value == "" {
        return Unavailable;
      }
      var testerData := Tester(name, email, ExperienceOrDefault(experience),
                               steamKey.value, signupDate);
      alphaTesters := alphaTesters + [testerData];
      // The record is committed before the mail is sent; a failed send
      // lands in the catch block and answers 500 without undoing anything.
      if mailDelivered {
        status := OK;
      } else {
        status := ServerError;
      }
    }

    /** GET /api/alpha-stats */
    method Stats() returns (totalSignups: int, keysRemaining: int)
      ensures StatsReport(totalSignups, keysRemaining) == SignupSpec.Stats(Snapshot())
      ensures Valid() ==> keysRemaining >= 0 && totalSignups + keysRemaining == |steamKeys|
    {
      totalSignups := |alphaTesters|;
      keysRemaining := |steamKeys| - keyIndex;
    }
  }

  /** A client that relies on the contracts alone: three keys, three new
      emails, then a fourth that finds the pool exhausted. */
  method ExhaustionClient()
  {
    var service := new SignupService(["A1", "B2", "C3"]);
    var st := service.Signup("Ann", "ann@x.com", "", "t1", true);
    assert st == OK;
    st := service.Signup("Ann", "ann@x.com", "", "t2", true);
    assert st == Conflict;
    st := service.Signup("Bob", "bob@x.com", "", "t3", false);
    assert st == ServerError;
    st := service.Signup("Cy", "cy@x.com", "", "t4", true);
    assert st == OK;
    st := service.Signup("Di", "di@x.com", "", "t5", true);
    assert st == Unavailable;
    var total, remaining := service.Stats();
    assert total == 3 && remaining == 0;
    assert service.alphaTesters[1].steamKey == "B2";
  }
}
