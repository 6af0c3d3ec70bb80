/** What controller operations keep of the scheduling half of the state. */
module FleetProofs {
  import opened Common
  import opened Vectors
  import opened Scheduling
  import opened Compass

  type Active = map<ClientId, Job>

  /** `jobs` are exactly the assignments made between `a` and `a'`, one for each client served. */
  ghost predicate Hands(a: Active, a': Active, jobs: seq<Job>) {
    && (forall k | 0 <= k < |jobs| ::
          && jobs[k].client in a' && a'[jobs[k].client] == jobs[k]
          && jobs[k].client !in a)
    && (forall i, j | 0 <= i < j < |jobs| :: jobs[i].client != jobs[j].client)
    && (forall c | c in a :: c in a' && a'[c] == a[c])
    && (forall c | c in a' && c !in a :: exists k :: 0 <= k < |jobs| && jobs[k].client == c)
  }

  lemma HandsNothing(a: Active)
    ensures Hands(a, a, [])
  {
  }

  lemma HandsJoin(a: Active, a1: Active, a2: Active, js: seq<Job>, ks: seq<Job>)
    requires Hands(a, a1, js) && Hands(a1, a2, ks)
    ensures Hands(a, a2, js + ks)
  {
    forall c | c in a2 && c !in a ensures exists k :: 0 <= k < |js + ks| && (js + ks)[k].client == c {
      if c in a1 {
        var k :| 0 <= k < |js| && js[k].client == c;
        assert (js + ks)[k].client == c;
      } else {
        var k :| 0 <= k < |ks| && ks[k].client == c;
        assert (js + ks)[|js| + k].client == c;
      }
    }
  }

  lemma ExtendsTrans(f: Fleet, f1: Fleet, f2: Fleet, now: real)
    requires Extends(f, f1, now) && Extends(f1, f2, now)
    ensures Extends(f, f2, now)
  {
  }

  ghost predicate AllIdle(f: Fleet, cs: seq<ClientId>) {
    forall k | 0 <= k < |cs| :: Idle(f, cs[k])
  }

  /** `jobs` serve the clients `cs`, in order, with the current version and time. */
  ghost predicate Served(
      cfg: Config, ids: set<ClientId>, f: Fleet, f': Fleet, version: nat, cs: seq<ClientId>, jobs: seq<Job>,
      now: real) {
    && FleetOk(cfg, ids, f', now) && Extends(f, f', now) && Hands(f.active, f'.active, jobs)
    && |jobs| == |cs|
    && forall k | 0 <= k < |cs| :: jobs[k].client == cs[k] && jobs[k].version == version && jobs[k].started == now
  }

  lemma StillIdle(f: Fleet, f': Fleet, cs: seq<ClientId>, jobs: seq<Job>, c: ClientId, now: real)
    requires Idle(f, c) && Extends(f, f', now) && Hands(f.active, f'.active, jobs) && c !in cs
    requires |jobs| == |cs| && forall k | 0 <= k < |cs| :: jobs[k].client == cs[k]
    ensures Idle(f', c)
  {
    forall g | g in f'.groups ensures c !in Clients(f'.groups[g].arrived) {
      if g in f.groups {
        assert f'.groups[g].arrived == f.groups[g].arrived;
      }
    }
    assert forall k | 0 <= k < |jobs| :: jobs[k].client in cs;
  }

  /** One more client served after `cs`. */
  lemma ServeNext(
      cfg: Config, ids: set<ClientId>, f: Fleet, before: Fleet, after: Fleet, version: nat, cs: seq<ClientId>,
      jobs: seq<Job>, job: Job, now: real)
    requires Served(cfg, ids, f, before, version, cs, jobs, now)
    requires FleetOk(cfg, ids, after, now) && Extends(before, after, now)
    requires after.active == before.active[job.client := job]
    requires job.client !in before.active && job.version == version && job.started == now
    ensures Served(cfg, ids, f, after, version, cs + [job.client], jobs + [job], now)
  {
    hide FleetOk;
    ExtendsTrans(f, before, after, now);
    assert Hands(before.active, after.active, [job]) by {
      assert [job][0].client == job.client;
    }
    HandsJoin(f.active, before.active, after.active, jobs, [job]);
  }

  /** Serving several idle clients keeps the invariant and gives each of them one job. */
  lemma {:induction false} AssignAllKeeps(
    cfg: Config, order: seq<ClientId>, ids: set<ClientId>, f: Fleet, version: nat, cs: seq<ClientId>, now: real)
    requires ValidConfig(cfg) && FleetOk(cfg, ids, f, now) && ids == (set c | c in order)
    requires Distinct(cs) && AllIdle(f, cs)
    requires forall c | c in cs :: c in ids && c in f.speeds
    ensures var (f', jobs) := AssignAll(cfg, order, f, version, cs, now);
            Served(cfg, ids, f, f', version, cs, jobs, now)
    decreases |cs|
  {
    hide FleetFits, Alive, Hands, Assign;
    if cs == [] {
      HandsNothing(f.active);
    } else {
      var (before, jobs) := AssignAll(cfg, order, f, version, DropLast(cs), now);
      var c := Last(cs);
      AssignAllKeeps(cfg, order, ids, f, version, DropLast(cs), now);
      assert cs == DropLast(cs) + [c];
      assert Idle(f, cs[|cs| - 1]);
      StillIdle(f, before, DropLast(cs), jobs, c, now);
      var (after, job) := Assign(cfg, order, before, version, c, now);
      AssignKeeps(cfg, order, ids, before, version, c, now);
      ServeNext(cfg, ids, f, before, after, version, DropLast(cs), jobs, job, now);
    }
  }

  // ----- arrivals -----

  /** The update answers the assignment that its client really holds. */
  ghost predicate Genuine(f: Fleet, job: Job) {
    job.client in f.active && f.active[job.client] == job
  }

  lemma LearnedSpeedsOk(cfg: Config, f: Fleet, job: Job, now: real)
    requires ValidConfig(cfg) && SpeedsOk(f)
    ensures var speeds := LearnSpeed(cfg, f.speeds, job, now);
            && job.client in speeds && f.speeds.Keys <= speeds.Keys
            && forall c | c in speeds :: speeds[c] > 0.0
  {
    var measured := Measured(job, now);
    assert measured > 0.0;
    var m := cfg.momentum;
    var previous := if job.client in f.speeds then f.speeds[job.client] else measured;
    Positive(m, previous, measured);
  }

  /** A new estimate lies between the old one and the measurement; a first one is the measurement. Without momentum
      the old one stays, with full momentum the measurement counts alone. */
  lemma EstimateBetween(cfg: Config, speeds: map<ClientId, real>, job: Job, now: real)
    requires ValidConfig(cfg)
    ensures var after := LearnSpeed(cfg, speeds, job, now);
            var measured := Measured(job, now);
            && after.Keys == speeds.Keys + {job.client}
            && (forall c | c in speeds && c != job.client :: after[c] == speeds[c])
            && (job.client !in speeds ==> after[job.client] == measured)
            && (job.client in speeds ==>
                  && Min(speeds[job.client], measured) <= after[job.client] <= Max(speeds[job.client], measured)
                  && (cfg.momentum == 0.0 ==> after[job.client] == speeds[job.client])
                  && (cfg.momentum == 1.0 ==> after[job.client] == measured))
  {
    hide Measured;
    var measured := Measured(job, now);
    var previous := if job.client in speeds then speeds[job.client] else measured;
    Between(cfg.momentum, previous, measured);
    Products(cfg.momentum, previous, measured);
    hide Mul;
  }

  lemma Products(m: real, a: real, b: real)
    ensures (1.0 - m) * a + m * b == Mul(1.0 - m, a) + Mul(m, b)
  {
  }

  lemma Between(m: real, a: real, b: real)
    requires 0.0 <= m <= 1.0
    ensures Min(a, b) <= Mul(1.0 - m, a) + Mul(m, b) <= Max(a, b)
    ensures m == 0.0 || a == b ==> Mul(1.0 - m, a) + Mul(m, b) == a
    ensures m == 1.0 ==> Mul(1.0 - m, a) + Mul(m, b) == b
  {
    Rest(m, a);
    Differ(m, a, b);
    Part(m, b - a);
    Part(m, a - b);
    Opposite(m, a - b);
    assert -(a - b) == b - a;
    hide Mul;
  }

  lemma Rest(m: real, a: real)
    ensures Mul(1.0 - m, a) == a - Mul(m, a)
  {
  }

  lemma Differ(m: real, a: real, b: real)
    ensures Mul(m, b - a) == Mul(m, b) - Mul(m, a)
  {
  }

  lemma Opposite(m: real, d: real)
    ensures Mul(m, -d) == -Mul(m, d)
  {
  }

  lemma Part(m: real, d: real)
    requires 0.0 <= m <= 1.0
    ensures 0.0 <= d ==> 0.0 <= Mul(m, d) <= d
    ensures (m == 0.0 || d == 0.0 ==> Mul(m, d) == 0.0) && (m == 1.0 ==> Mul(m, d) == d)
  {
    Rest(m, d);
    NoneOf(m, d);
    NoneOf(1.0 - m, d);
    if 0.0 <= d {
      NotNegative(m, d);
      NotNegative(1.0 - m, d);
    }
    hide Mul;
  }

  lemma NoneOf(m: real, d: real)
    ensures m == 0.0 || d == 0.0 ==> Mul(m, d) == 0.0
  {
  }

  lemma NotNegative(m: real, d: real)
    requires 0.0 <= m && 0.0 <= d
    ensures 0.0 <= Mul(m, d)
  {
  }

  lemma Positive(m: real, a: real, b: real)
    requires 0.0 <= m <= 1.0 && a > 0.0 && b > 0.0
    ensures (1.0 - m) * a + m * b > 0.0
  {
    if m < 1.0 {
      assert (1.0 - m) * a > 0.0;
      assert m * b >= 0.0;
    }
  }

  lemma RetireInitialKeeps(env: Env, s: Controller, job: Job, now: real)
    requires ValidConfig(env.cfg) && FleetOk(env.cfg, Ids(env), s.fleet, now) && Genuine(s.fleet, job)
    requires job.group.None?
    ensures var s1 := Retire(env.cfg, s, job, now);
            && FleetOk(env.cfg, Ids(env), s1.fleet, now)
            && Idle(s1.fleet, job.client) && job.client in s1.fleet.speeds && job.client in Ids(env)
  {
    LearnedSpeedsOk(env.cfg, s.fleet, job, now);
    hide LearnSpeed;
    var f := s.fleet;
    var f1 := Retire(env.cfg, s, job, now).fleet;
    forall g | g in f1.groups ensures GroupOk(Ids(env), f1, g, f1.groups[g])
          && job.client !in Clients(f1.groups[g].arrived) {
      assert GroupOk(Ids(env), f, g, f.groups[g]);
    }
  }

  /** A late answer leaves every group in order. */
  lemma LateGroup(env: Env, f: Fleet, f2: Fleet, gid: nat, u: Update, g: nat)
    requires FleetFits(env.cfg, Ids(env), f) && Genuine(f, u.job) && u.job.group == Some(gid) && g in f.groups
    requires f2.groups == Unpend(f.groups, gid, u.job.client)
    requires f2.active == f.active - {u.job.client} && f2.nextGroup == f.nextGroup
    requires u.job.client in f2.speeds && forall c | c in f.speeds :: c in f2.speeds
    ensures GroupOk(Ids(env), f2, g, f2.groups[g]) && u.job.client !in Clients(f2.groups[g].arrived)
  {
    assert GroupOk(Ids(env), f, g, f.groups[g]);
  }

  /** A late arrival leaves the group it missed; the invariant holds and the client is idle. */
  lemma RetireLateKeeps(env: Env, s: Controller, u: Update, gid: nat, now: real)
    requires ValidConfig(env.cfg) && FleetOk(env.cfg, Ids(env), s.fleet, now) && Genuine(s.fleet, u.job)
    requires u.job.group == Some(gid)
    requires MissedGroup(s.fleet, gid, now)
    ensures var f2 := StoreLate(Retire(env.cfg, s, u.job, now), gid, u).fleet;
            && FleetOk(env.cfg, Ids(env), f2, now)
            && Idle(f2, u.job.client) && u.job.client in f2.speeds && u.job.client in Ids(env)
  {
    hide LearnSpeed, GroupOk, SupersedePrevious, Put;
    LearnedSpeedsOk(env.cfg, s.fleet, u.job, now);
    var f := s.fleet;
    var f2 := StoreLate(Retire(env.cfg, s, u.job, now), gid, u).fleet;
    forall g | g in f2.groups
      ensures GroupOk(Ids(env), f2, g, f2.groups[g]) && u.job.client !in Clients(f2.groups[g].arrived)
    {
      LateGroup(env, f, f2, gid, u, g);
    }
    assert forall g | g in f2.groups :: f2.groups[g].arrived == f.groups[g].arrived;
    LateApart(f, f2);
    assert JobsOk(env.cfg, Ids(env), f2);
  }

  lemma LateApart(f: Fleet, f2: Fleet)
    requires Apart(f) && forall g | g in f2.groups :: g in f.groups && f2.groups[g].arrived == f.groups[g].arrived
    ensures Apart(f2)
  {
  }

  /** An arrival leaves every group in order. */
  lemma ArriveGroup(env: Env, f: Fleet, f2: Fleet, gid: nat, u: Update, g: nat)
    requires FleetFits(env.cfg, Ids(env), f) && Genuine(f, u.job) && u.job.group == Some(gid) && g in f.groups
    requires gid in f.groups && !f.groups[gid].closed
    requires f2.groups == f.groups[gid := f.groups[gid].(pending :=
          f.groups[gid].pending - {u.job.client}, arrived := f.groups[gid].arrived + [u])]
    requires f2.active == f.active - {u.job.client} && f2.nextGroup == f.nextGroup
    requires u.job.client in f2.speeds && forall c | c in f.speeds :: c in f2.speeds
    ensures GroupOk(Ids(env), f2, g, f2.groups[g])
  {
    assert GroupOk(Ids(env), f, g, f.groups[g]);
    forall v | v in f.groups[g].arrived
      ensures v.job.client != u.job.client
    {
      assert v.job.client !in f.active;
    }
  }

  /** An arrival in time was expected there: removing it from the pending clients never throws. */
  lemma ArriveKeeps(env: Env, s: Controller, u: Update, gid: nat, now: real)
    requires ValidConfig(env.cfg) && FleetOk(env.cfg, Ids(env), s.fleet, now) && Genuine(s.fleet, u.job)
    requires u.job.group == Some(gid)
    requires !MissedGroup(s.fleet, gid, now)
    ensures u.job.client in s.fleet.groups[gid].pending
    ensures var f2 := Arrive(Retire(env.cfg, s, u.job, now), gid, u).fleet;
            && FleetFits(env.cfg, Ids(env), f2) && Alive(f2, now, Some(gid))
            && (f2.groups[gid].pending != {} ==> FleetOk(env.cfg, Ids(env), f2, now))
            && f2.active == s.fleet.active - {u.job.client}
            && Waiting(f2, u.job.client)
  {
    LearnedSpeedsOk(env.cfg, s.fleet, u.job, now);
    hide LearnSpeed;
    var f := s.fleet;
    var c := u.job.client;
    var s1 := Retire(env.cfg, s, u.job, now);
    var f2 := Arrive(s1, gid, u).fleet;
    assert GroupOk(Ids(env), f, gid, f.groups[gid]);
    forall g | g in f2.groups
      ensures GroupOk(Ids(env), f2, g, f2.groups[g])
    {
      ArriveGroup(env, f, f2, gid, u, g);
    }
    hide GroupOk;
    ArriveApart(env, f, f2, gid, u);
    assert JobsOk(env.cfg, Ids(env), f2);
    assert u in f2.groups[gid].arrived;
  }

  lemma ArriveApart(env: Env, f: Fleet, f2: Fleet, gid: nat, u: Update)
    requires FleetFits(env.cfg, Ids(env), f) && Genuine(f, u.job) && gid in f.groups
    requires f2.groups == f.groups[gid := f.groups[gid].(pending :=
          f.groups[gid].pending - {u.job.client}, arrived := f.groups[gid].arrived + [u])]
    ensures Apart(f2)
  {
    var c := u.job.client;
    forall g, h | g in f2.groups && h in f2.groups && g != h
      ensures Clients(f2.groups[g].arrived) !! Clients(f2.groups[h].arrived)
    {
      assert GroupOk(Ids(env), f, g, f.groups[g]) && GroupOk(Ids(env), f, h, f.groups[h]);
      assert c !in Clients(f.groups[g].arrived) && c !in Clients(f.groups[h].arrived);
      assert Clients(f.groups[gid].arrived + [u]) == Clients(f.groups[gid].arrived) + {c};
    }
  }

  // ----- closing -----

  /** Closing a group leaves its arrivals idle. */
  lemma ShutKeeps(env: Env, s: Controller, gid: nat, now: real, reason: Reason)
    requires FleetFits(env.cfg, Ids(env), s.fleet) && Alive(s.fleet, now, Some(gid)) && gid in s.fleet.groups
    ensures var f' := Shut(s, gid, now, reason).fleet;
            && FleetOk(env.cfg, Ids(env), f', now)
            && f'.active == s.fleet.active && f'.speeds == s.fleet.speeds
            && (forall u | u in s.fleet.groups[gid].arrived ::
                  Idle(f', u.job.client) && u.job.client in f'.speeds && u.job.client in Ids(env))
            && Distinct(ClientsOf(s.fleet.groups[gid].arrived))
  {
    var f := s.fleet;
    var f' := Shut(s, gid, now, reason).fleet;
    forall g | g in f'.groups ensures GroupOk(Ids(env), f', g, f'.groups[g]) {
      assert GroupOk(Ids(env), f, g, f.groups[g]);
    }
    assert GroupOk(Ids(env), f, gid, f.groups[gid]);
    forall u | u in f.groups[gid].arrived ensures Idle(f', u.job.client) {
      assert u.job.client in Clients(f.groups[gid].arrived);
      forall g | g in f'.groups ensures u.job.client !in Clients(f'.groups[g].arrived) {
        if g != gid {
          assert f'.groups[g] == f.groups[g];
        }
      }
    }
  }

  ghost predicate FastestFirst(speeds: map<ClientId, real>, cs: seq<ClientId>) {
    forall i, j :: 0 <= i < j < |cs| ==> SpeedOf(speeds, cs[i]) <= SpeedOf(speeds, cs[j])
  }

  lemma InsertMembers(speeds: map<ClientId, real>, cs: seq<ClientId>, c: ClientId)
    ensures |InsertBySpeed(speeds, cs, c)| == |cs| + 1
    ensures forall d | d in InsertBySpeed(speeds, cs, c) :: d in cs || d == c
  {
    var r := InsertBySpeed(speeds, cs, c);
    assert multiset(r) == multiset(cs) + multiset{c};
    assert |multiset(r)| == |r| && |multiset(cs)| == |cs|;
    forall d | d in r
      ensures d in cs || d == c
    {
      assert d in multiset(r);
      assert d in multiset(cs) || d == c;
    }
    hide InsertBySpeed;
  }

  /** Appending a client that is no faster than the last keeps the order. */
  lemma AppendSorts(speeds: map<ClientId, real>, cs: seq<ClientId>, c: ClientId)
    requires FastestFirst(speeds, cs)
    requires forall d | d in cs :: SpeedOf(speeds, d) <= SpeedOf(speeds, c)
    ensures FastestFirst(speeds, cs + [c])
  {
    hide SpeedOf;
  }

  lemma LastSlowest(speeds: map<ClientId, real>, cs: seq<ClientId>)
    requires FastestFirst(speeds, cs) && cs != []
    ensures FastestFirst(speeds, DropLast(cs))
    ensures forall d | d in cs :: SpeedOf(speeds, d) <= SpeedOf(speeds, Last(cs))
  {
    hide SpeedOf;
  }

  lemma {:induction false} InsertSorts(speeds: map<ClientId, real>, cs: seq<ClientId>, c: ClientId)
    requires FastestFirst(speeds, cs)
    ensures FastestFirst(speeds, InsertBySpeed(speeds, cs, c))
  {
    if cs != [] {
      LastSlowest(speeds, cs);
      if SpeedOf(speeds, Last(cs)) <= SpeedOf(speeds, c) {
        AppendSorts(speeds, cs, c);
      } else {
        InsertSorts(speeds, DropLast(cs), c);
        InsertMembers(speeds, DropLast(cs), c);
        AppendSorts(speeds, InsertBySpeed(speeds, DropLast(cs), c), Last(cs));
      }
    }
    hide FastestFirst, SpeedOf;
  }

  /** Clients are released fastest first. */
  lemma {:induction false} BySpeedSorts(speeds: map<ClientId, real>, cs: seq<ClientId>)
    ensures FastestFirst(speeds, BySpeed(speeds, cs)) && multiset(BySpeed(speeds, cs)) == multiset(cs)
  {
    if cs != [] {
      BySpeedSorts(speeds, DropLast(cs));
      InsertSorts(speeds, BySpeed(speeds, DropLast(cs)), Last(cs));
    }
  }

  lemma BySpeedServes(speeds: map<ClientId, real>, us: seq<Update>)
    requires Distinct(ClientsOf(us))
    ensures Distinct(BySpeed(speeds, ClientsOf(us)))
    ensures forall c :: c in BySpeed(speeds, ClientsOf(us)) <==> c in Clients(us)
  {
    var cs := ClientsOf(us);
    var r := BySpeed(speeds, cs);
    DistinctCounts(cs);
    CountsDistinct(r);
    forall c ensures c in r <==> c in Clients(us) {
      assert c in r <==> c in multiset(r);
      assert c in cs <==> c in multiset(cs);
      if c in cs {
        var k :| 0 <= k < |cs| && cs[k] == c;
        assert us[k] in us;
      }
      if c in Clients(us) {
        var u :| u in us && u.job.client == c;
        var k :| 0 <= k < |us| && us[k] == u;
        assert cs[k] == c;
      }
    }
  }

  lemma {:induction false} DistinctCounts(cs: seq<ClientId>)
    requires Distinct(cs)
    ensures forall c | c in multiset(cs) :: multiset(cs)[c] == 1
  {
    if cs != [] {
      DistinctCounts(DropLast(cs));
      assert cs == DropLast(cs) + [Last(cs)];
      assert Last(cs) !in DropLast(cs);
    }
  }

  lemma {:induction false} CountsDistinct(cs: seq<ClientId>)
    requires forall c | c in multiset(cs) :: multiset(cs)[c] == 1
    ensures Distinct(cs)
  {
    if cs != [] {
      assert cs == DropLast(cs) + [Last(cs)];
      forall c | c in multiset(DropLast(cs)) ensures multiset(DropLast(cs))[c] == 1 {
        assert multiset(cs)[c] == 1;
      }
      CountsDistinct(DropLast(cs));
      assert Last(cs) in multiset(cs);
      assert multiset(cs)[Last(cs)] == 1;
      assert Last(cs) !in multiset(DropLast(cs));
      assert forall k | 0 <= k < |cs| - 1 :: cs[k] in multiset(DropLast(cs));
    }
  }
}
