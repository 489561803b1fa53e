// Which lcore does what: one worker thread runs everything, several split into one I/O lcore and
// workers numbered from zero.
module Roles {
  const MAX_LCORES: nat := 32

  datatype Role = Mono | Io | Worker(id: nat)

  datatype Launch = Launch(workers: nat, roles: seq<Role>) | TooFew | TooMany

  // Every worker number below the number of workers is given to exactly one lcore.
  ghost predicate Staffed(s: Launch)
    requires s.Launch?
  {
    && (forall i: nat | i < |s.roles| && s.roles[i].Worker? :: s.roles[i].id < s.workers)
    && (forall i: nat, j: nat | i < j < |s.roles| && s.roles[i].Worker? && s.roles[j].Worker? ::
      s.roles[i].id != s.roles[j].id)
    && (forall w: nat | w < s.workers :: exists i: nat :: i < |s.roles| && s.roles[i] == Worker(w))
  }

  method AssignRoles(total: nat) returns (s: Launch)
    ensures s.TooFew? <==> total < 1
    ensures s.TooMany? <==> total > MAX_LCORES
    ensures s.Launch? ==> |s.roles| == total
    ensures total == 1 ==> s == Launch(1, [Mono])
    ensures s.Launch? && total >= 2 ==> s.workers == total - 1 && s.roles[0] == Io && Mono !in s.roles && Staffed(s)
  {
    if total < 1 {
      return TooFew;
    }
    if total > MAX_LCORES {
      return TooMany;
    }
    var distributor := total >= 2;
    var roles: seq<Role> := [];
    var workerId: nat := 0;
    for idx := 0 to total
      invariant |roles| == idx
      invariant !distributor ==> forall i: nat | i < idx :: roles[i] == Mono
      invariant distributor ==> workerId == if idx == 0 then 0 else idx - 1
      invariant distributor ==> forall i: nat | i < idx :: roles[i] == if i == 0 then Io else Worker(i - 1)
    {
      if !distributor {
        roles := roles + [Mono];
      } else if idx == 0 {
        roles := roles + [Io];
      } else {
        roles := roles + [Worker(workerId)];
        workerId := workerId + 1;
      }
    }
    s := Launch(if distributor then total - 1 else 1, roles);
    assert distributor ==> forall w: nat | w < s.workers :: roles[w + 1] == Worker(w);
  }
}
