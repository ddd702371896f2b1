/**
 * Start-up reconciliation of the database initialiser
 * (src/Api/Data/InitDb.cs): create the three roles if missing, create the
 * administrator account if missing and make it a SuperAdmin, seed the demo
 * catalog when no product exists, in that order after migrating and before
 * a final save.
 *
 * The identity services and the database context are one abstract store.
 * Its state is a value (StoreState); the reconciliation steps are specified
 * as functions from state to state plus an outcome (RolesRun, AdminRun,
 * ProductsRun, SeedRun), and the imperative steps acting on a Store object
 * are proved to follow them.
 */
module Bootstrap {
  import opened Common

  const AdminRole := "Admin"
  const CustomerRole := "Customer"
  const SuperAdminRole := "SuperAdmin"

  /** The number of products the demo catalog adds in one batch: three shirts, three pairs of shoes, one pair of trousers and one belt. */
  const DemoProductCount := 8

  datatype Account = Account(email: string, userName: string)

  /** The configured administrator credentials. The password is handed to the identity service only. */
  datatype AdminSecrets = AdminSecrets(email: string, userName: string, password: string)

  /** A call made on the store; the store's log keeps them in the order they are made. */
  datatype Call =
    | Migrate
    | RoleExists(role: string)
    | CreateRole(role: string)
    | FindByEmail(email: string)
    | CreateUser(email: string)
    | IsInRole(email: string, role: string)
    | AddToRole(email: string, role: string)
    | AnyProducts
    | AddProducts(count: nat)
    | SaveChanges

  /** Why a run stopped: an exception the initialiser throws, or a store call that failed. */
  datatype Failure = Thrown(message: string) | StoreFailed(call: Call)

  datatype Outcome = Done | Fatal(failure: Failure)

  /**
   * Roles by name, accounts by email, (email, role) memberships, the number
   * of saved products, products added but not yet saved, and the call log.
   */
  datatype StoreState = StoreState(
    roles: set<string>,
    users: map<string, Account>,
    memberships: set<(string, string)>,
    products: nat,
    pending: nat,
    log: seq<Call>)

  /** The state a step leaves and how it ended. */
  datatype Run = Run(state: StoreState, outcome: Outcome)

  /** A role to ensure and the message thrown when creating it fails. */
  datatype RoleSpec = RoleSpec(name: string, failure: string)

  /** The roles ensured at start-up, in the order they are checked. */
  const RoleSpecs := [
    RoleSpec(AdminRole, "Failed to create admin role"),
    RoleSpec(CustomerRole, "Failed to create customer role"),
    RoleSpec(SuperAdminRole, "Failed to create SuperAdmin role")
  ]

  const AdminCreateFailure := "Failed to create admin user"
  const AdminGrantFailure := "Failed to add admin user to roles"

  function Logged(s: StoreState, c: Call): StoreState
  {
    s.(log := s.log + [c])
  }

  /**
   * The store whose state the initialiser reconciles. The calls in
   * `rejects` fail whenever they are made (a failed IdentityResult, or an
   * exception from migrating or saving); every other call succeeds.
   */
  class Store {
    const rejects: set<Call>
    var roles: set<string>
    var users: map<string, Account>
    var memberships: set<(string, string)>
    var products: nat
    var pending: nat
    var log: seq<Call>

    function State(): StoreState
      reads this
    {
      StoreState(roles, users, memberships, products, pending, log)
    }

    constructor (initial: StoreState, rejects: set<Call>)
      ensures State() == initial && this.rejects == rejects
    {
      this.rejects := rejects;
      roles := initial.roles;
      users := initial.users;
      memberships := initial.memberships;
      products := initial.products;
      pending := initial.pending;
      log := initial.log;
    }

    /** Applies outstanding schema migrations; the catalog state is not affected. */
    method Migrate() returns (ok: bool)
      modifies this`log
      ensures ok == (Call.Migrate !in rejects)
      ensures State() == Logged(old(State()), Call.Migrate)
    {
      log := log + [Call.Migrate];
      ok := Call.Migrate !in rejects;
    }

    method RoleExists(role: string) returns (found: bool)
      modifies this`log
      ensures found == (role in roles)
      ensures State() == Logged(old(State()), Call.RoleExists(role))
    {
      log := log + [Call.RoleExists(role)];
      found := role in roles;
    }

    method CreateRole(role: string) returns (ok: bool)
      modifies this`roles, this`log
      ensures ok == (Call.CreateRole(role) !in rejects)
      ensures State() == if ok then Logged(old(State()), Call.CreateRole(role)).(roles := old(roles) + {role})
                         else Logged(old(State()), Call.CreateRole(role))
    {
      log := log + [Call.CreateRole(role)];
      ok := Call.CreateRole(role) !in rejects;
      if ok {
        roles := roles + {role};
      }
    }

    method FindByEmail(email: string) returns (account: Option<Account>)
      modifies this`log
      ensures account == if email in users then Some(users[email]) else None
      ensures State() == Logged(old(State()), Call.FindByEmail(email))
    {
      log := log + [Call.FindByEmail(email)];
      account := if email in users then Some(users[email]) else None;
    }

    method CreateUser(account: Account, password: string) returns (ok: bool)
      modifies this`users, this`log
      ensures ok == (Call.CreateUser(account.email) !in rejects)
      ensures State() == if ok then Logged(old(State()), Call.CreateUser(account.email)).(users := old(users)[account.email := account])
                         else Logged(old(State()), Call.CreateUser(account.email))
    {
      log := log + [Call.CreateUser(account.email)];
      ok := Call.CreateUser(account.email) !in rejects;
      if ok {
        users := users[account.email := account];
      }
    }

    method IsInRole(email: string, role: string) returns (member: bool)
      modifies this`log
      ensures member == ((email, role) in memberships)
      ensures State() == Logged(old(State()), Call.IsInRole(email, role))
    {
      log := log + [Call.IsInRole(email, role)];
      member := (email, role) in memberships;
    }

    method AddToRole(email: string, role: string) returns (ok: bool)
      modifies this`memberships, this`log
      ensures ok == (Call.AddToRole(email, role) !in rejects)
      ensures State() == if ok then Logged(old(State()), Call.AddToRole(email, role)).(memberships := old(memberships) + {(email, role)})
                         else Logged(old(State()), Call.AddToRole(email, role))
    {
      log := log + [Call.AddToRole(email, role)];
      ok := Call.AddToRole(email, role) !in rejects;
      if ok {
        memberships := memberships + {(email, role)};
      }
    }

    method AnyProducts() returns (any: bool)
      modifies this`log
      ensures any == (products != 0)
      ensures State() == Logged(old(State()), Call.AnyProducts)
    {
      log := log + [Call.AnyProducts];
      any := products != 0;
    }

    /** Tracks `count` new products for the next save. */
    method AddProducts(count: nat)
      modifies this`pending, this`log
      ensures State() == Logged(old(State()), Call.AddProducts(count)).(pending := old(pending) + count)
    {
      log := log + [Call.AddProducts(count)];
      pending := pending + count;
    }

    /** Commits the tracked additions; a failed save commits nothing. */
    method SaveChanges() returns (ok: bool)
      modifies this`products, this`pending, this`log
      ensures ok == (Call.SaveChanges !in rejects)
      ensures State() == if ok then Logged(old(State()), Call.SaveChanges).(products := old(products) + old(pending), pending := 0)
                         else Logged(old(State()), Call.SaveChanges)
    {
      log := log + [Call.SaveChanges];
      ok := Call.SaveChanges !in rejects;
      if ok {
        products := products + pending;
        pending := 0;
      }
    }
  }

  // ---------------------------------------------------------------------------
  // Specification of the steps
  // ---------------------------------------------------------------------------

  /** Check one role; create it only when missing; a failed creation throws. */
  function RoleRun(s: StoreState, spec: RoleSpec, rejects: set<Call>): (r: Run)
    ensures r.outcome.Fatal? <==> spec.name !in s.roles && CreateRole(spec.name) in rejects
    ensures r.outcome.Done? ==> spec.name in r.state.roles
  {
    var checked := Logged(s, RoleExists(spec.name));
    if spec.name in s.roles then Run(checked, Done)
    else
      var tried := Logged(checked, CreateRole(spec.name));
      if CreateRole(spec.name) in rejects then Run(tried, Fatal(Thrown(spec.failure)))
      else Run(tried.(roles := s.roles + {spec.name}), Done)
  }

  /** Ensure the roles one after another, stopping at the first failure. */
  function RolesRun(s: StoreState, specs: seq<RoleSpec>, rejects: set<Call>): (r: Run)
    ensures r.state.users == s.users && r.state.memberships == s.memberships
    ensures r.state.products == s.products && r.state.pending == s.pending
    ensures r.outcome.Done? ==> |s.log| + |specs| <= |r.state.log|
    decreases |specs|
  {
    if specs == [] then Run(s, Done)
    else
      var first := RoleRun(s, specs[0], rejects);
      if first.outcome.Fatal? then first else RolesRun(first.state, specs[1..], rejects)
  }

  /** Make the admin a SuperAdmin unless already one; a failed grant throws. */
  function GrantRun(s: StoreState, email: string, rejects: set<Call>): (r: Run)
    ensures r.outcome.Done? <==> (email, SuperAdminRole) in s.memberships || AddToRole(email, SuperAdminRole) !in rejects
    ensures r.outcome.Done? ==> (email, SuperAdminRole) in r.state.memberships
  {
    var checked := Logged(s, IsInRole(email, SuperAdminRole));
    if (email, SuperAdminRole) in s.memberships then Run(checked, Done)
    else
      var tried := Logged(checked, AddToRole(email, SuperAdminRole));
      if AddToRole(email, SuperAdminRole) in rejects then Run(tried, Fatal(Thrown(AdminGrantFailure)))
      else Run(tried.(memberships := s.memberships + {(email, SuperAdminRole)}), Done)
  }

  /**
   * Look the admin up by email; create the account only when missing (a
   * failed creation throws), then grant SuperAdmin.
   */
  function AdminRun(s: StoreState, secrets: AdminSecrets, rejects: set<Call>): (r: Run)
    ensures r.outcome.Done? ==> secrets.email in r.state.users && (secrets.email, SuperAdminRole) in r.state.memberships
  {
    var looked := Logged(s, FindByEmail(secrets.email));
    if secrets.email in s.users then GrantRun(looked, secrets.email, rejects)
    else
      var tried := Logged(looked, CreateUser(secrets.email));
      if CreateUser(secrets.email) in rejects then Run(tried, Fatal(Thrown(AdminCreateFailure)))
      else GrantRun(tried.(users := s.users[secrets.email := Account(secrets.email, secrets.userName)]), secrets.email, rejects)
  }

  /** Commit what is pending; a failed save aborts the run. */
  function SaveRun(s: StoreState, rejects: set<Call>): (r: Run)
    ensures r.outcome.Done? <==> SaveChanges !in rejects
    ensures r.outcome.Done? ==> r.state.products == s.products + s.pending && r.state.pending == 0
    ensures r.outcome.Fatal? ==> r.state.products == s.products && r.state.pending == s.pending
  {
    var tried := Logged(s, SaveChanges);
    if SaveChanges in rejects then Run(tried, Fatal(StoreFailed(SaveChanges)))
    else Run(tried.(products := s.products + s.pending, pending := 0), Done)
  }

  /** Seed the demo catalog only when no product exists. */
  function ProductsRun(s: StoreState, rejects: set<Call>): (r: Run)
    ensures r.outcome.Done? ==> r.state.products != 0
  {
    var checked := Logged(s, AnyProducts);
    if s.products != 0 then Run(checked, Done)
    else SaveRun(Logged(checked, AddProducts(DemoProductCount)).(pending := s.pending + DemoProductCount), rejects)
  }

  /** The catalog step, then the final save unless the catalog step failed. */
  function CatalogAndSave(s: StoreState, rejects: set<Call>): Run
  {
    var catalog := ProductsRun(s, rejects);
    if catalog.outcome.Fatal? then catalog else SaveRun(catalog.state, rejects)
  }

  /** The admin step, then the catalog and the final save unless it failed. */
  function AdminAndAfter(s: StoreState, secrets: AdminSecrets, rejects: set<Call>): Run
  {
    var admin := AdminRun(s, secrets, rejects);
    if admin.outcome.Fatal? then admin else CatalogAndSave(admin.state, rejects)
  }

  /** The whole start-up: migrate, roles, admin, catalog, save; the first failure ends it. */
  function SeedRun(s: StoreState, secrets: AdminSecrets, rejects: set<Call>): (r: Run)
    ensures r.outcome.Done? ==> r.state.products != 0 && r.state.pending == 0
  {
    var migrated := Logged(s, Migrate);
    if Migrate in rejects then Run(migrated, Fatal(StoreFailed(Migrate)))
    else
      var roles := RolesRun(migrated, RoleSpecs, rejects);
      if roles.outcome.Fatal? then roles else AdminAndAfter(roles.state, secrets, rejects)
  }

  /** The admin step leaves roles, products and pending additions alone. */
  lemma AdminRunFrame(s: StoreState, secrets: AdminSecrets, rejects: set<Call>)
    ensures var r := AdminRun(s, secrets, rejects);
            r.state.roles == s.roles && r.state.products == s.products && r.state.pending == s.pending
  {
  }

  /**
   * The admin step touches only the admin's account and its SuperAdmin
   * membership; on success both exist. An existing account is never
   * recreated; with account and membership present the step only looks
   * them up; a rejected creation throws right after the lookup.
   */
  lemma AdminRunEffect(s: StoreState, secrets: AdminSecrets, rejects: set<Call>)
    ensures var r := AdminRun(s, secrets, rejects);
      && (r.outcome.Done? ==> secrets.email in r.state.users && (secrets.email, SuperAdminRole) in r.state.memberships)
      && (secrets.email in s.users ==> r.state.users == s.users)
      && (secrets.email !in s.users ==>
            r.state.users == s.users || r.state.users == s.users[secrets.email := Account(secrets.email, secrets.userName)])
      && (r.state.memberships == s.memberships || r.state.memberships == s.memberships + {(secrets.email, SuperAdminRole)})
      && (secrets.email in s.users && (secrets.email, SuperAdminRole) in s.memberships ==>
            r == Run(s.(log := s.log + [FindByEmail(secrets.email), IsInRole(secrets.email, SuperAdminRole)]), Done))
      && (secrets.email !in s.users && CreateUser(secrets.email) in rejects ==>
            r == Run(s.(log := s.log + [FindByEmail(secrets.email), CreateUser(secrets.email)]), Fatal(Thrown(AdminCreateFailure))))
      && (r.outcome.Done? <==>
            (secrets.email in s.users || CreateUser(secrets.email) !in rejects) &&
            ((secrets.email, SuperAdminRole) in s.memberships || AddToRole(secrets.email, SuperAdminRole) !in rejects))
      && ((secrets.email in s.users || CreateUser(secrets.email) !in rejects) &&
          (secrets.email, SuperAdminRole) !in s.memberships && AddToRole(secrets.email, SuperAdminRole) in rejects ==>
            r.outcome == Fatal(Thrown(AdminGrantFailure)) && r.state.memberships == s.memberships)
  {
  }

  /**
   * The catalog step leaves roles, accounts and memberships alone. With
   * products present it only checks; with none, a successful step has saved
   * the pending products plus the demo batch; a failed save keeps the
   * product count.
   */
  lemma ProductsRunEffect(s: StoreState, rejects: set<Call>)
    ensures var r := ProductsRun(s, rejects);
      && r.state.roles == s.roles && r.state.users == s.users && r.state.memberships == s.memberships
      && (s.products != 0 ==> r == Run(Logged(s, AnyProducts), Done))
      && (s.products == 0 && r.outcome.Done? ==> r.state.products == s.pending + DemoProductCount && r.state.pending == 0)
      && (r.outcome.Fatal? ==> r.state.products == s.products)
  {
  }

  // ---------------------------------------------------------------------------
  // Role reconciliation: what a run does and where it stops
  // ---------------------------------------------------------------------------

  function Names(specs: seq<RoleSpec>): set<string>
  {
    set i | 0 <= i < |specs| :: specs[i].name
  }

  predicate DistinctNames(specs: seq<RoleSpec>)
  {
    forall a, b :: 0 <= a < b < |specs| ==> specs[a].name != specs[b].name
  }

  lemma NamesCons(h: RoleSpec, t: seq<RoleSpec>)
    ensures Names([h] + t) == {h.name} + Names(t)
  {
    var p := [h] + t;
    forall n | n in Names(p) ensures n in {h.name} + Names(t) {
      var i :| 0 <= i < |p| && p[i].name == n;
      if i > 0 {
        assert t[i - 1].name == n;
      }
    }
    forall n | n in {h.name} + Names(t) ensures n in Names(p) {
      if n == h.name {
        assert p[0].name == n;
      } else {
        var i :| 0 <= i < |t| && t[i].name == n;
        assert p[i + 1].name == n;
      }
    }
  }

  /** In a list of distinct names the head's name does not occur in the tail, whose names are distinct. */
  lemma DistinctHead(specs: seq<RoleSpec>)
    requires DistinctNames(specs) && specs != []
    ensures specs[0].name !in Names(specs[1..]) && DistinctNames(specs[1..])
  {
    forall i | 0 <= i < |specs| - 1
      ensures specs[1..][i].name != specs[0].name
    {
      assert specs[1..][i] == specs[i + 1];
    }
  }

  /**
   * The position of the first role that is missing from `roles` and whose
   * creation the store rejects, or |specs| when there is none.
   */
  function FirstRejected(roles: set<string>, specs: seq<RoleSpec>, rejects: set<Call>): (k: nat)
    ensures k <= |specs|
    ensures k < |specs| ==> specs[k].name !in roles && CreateRole(specs[k].name) in rejects
    ensures forall i :: 0 <= i < k ==> specs[i].name in roles || CreateRole(specs[i].name) !in rejects
    decreases |specs|
  {
    if specs == [] then 0
    else if specs[0].name !in roles && CreateRole(specs[0].name) in rejects then 0
    else 1 + FirstRejected(roles, specs[1..], rejects)
  }

  /**
   * The calls that ensuring the first `n` roles of `specs` makes when the
   * roles present are `roles`: a check each, a create for each missing one.
   */
  function RoleTrace(roles: set<string>, specs: seq<RoleSpec>, n: nat): seq<Call>
    decreases |specs|
  {
    if specs == [] || n == 0 then []
    else
      var create := if specs[0].name in roles then [] else [CreateRole(specs[0].name)];
      [RoleExists(specs[0].name)] + create + RoleTrace(roles, specs[1..], n - 1)
  }

  /** A role that is not in the list does not affect the first rejection or the calls made. */
  lemma {:induction false} IgnoreOtherRole(roles: set<string>, x: string, specs: seq<RoleSpec>, rejects: set<Call>, n: nat)
    requires x !in Names(specs)
    ensures FirstRejected(roles + {x}, specs, rejects) == FirstRejected(roles, specs, rejects)
    ensures RoleTrace(roles + {x}, specs, n) == RoleTrace(roles, specs, n)
    decreases |specs|
  {
    if specs != [] {
      assert specs == [specs[0]] + specs[1..];
      NamesCons(specs[0], specs[1..]);
      IgnoreOtherRole(roles, x, specs[1..], rejects, if n == 0 then 0 else n - 1);
    }
  }

  /** How many roles of `n` a run attempts when the first rejected one is at `k`: up to and including it. */
  function Attempted(k: nat, n: nat): nat
  {
    if k < n then k + 1 else k
  }

  /**
   * When the first role is handled without failure, the first rejection of
   * the list is one past the first rejection of the rest, as seen from the
   * roles after handling the first, and the rest makes the same calls as
   * seen from the roles before.
   */
  lemma FirstRejectedCons(s: StoreState, specs: seq<RoleSpec>, rejects: set<Call>, n: nat)
    requires specs != [] && specs[0].name !in Names(specs[1..])
    requires RoleRun(s, specs[0], rejects).outcome.Done?
    ensures FirstRejected(s.roles, specs, rejects)
            == 1 + FirstRejected(RoleRun(s, specs[0], rejects).state.roles, specs[1..], rejects)
    ensures RoleTrace(RoleRun(s, specs[0], rejects).state.roles, specs[1..], n) == RoleTrace(s.roles, specs[1..], n)
  {
    var h, t := specs[0], specs[1..];
    if h.name !in s.roles {
      IgnoreOtherRole(s.roles, h.name, t, rejects, n);
    }
  }

  /**
   * With distinct role names, a role run stops exactly at the first missing
   * role whose creation is rejected, throwing that role's message, and has
   * then created exactly the missing roles before it.
   */
  lemma {:induction false} RolesRunStops(s: StoreState, specs: seq<RoleSpec>, rejects: set<Call>)
    requires DistinctNames(specs)
    ensures var k := FirstRejected(s.roles, specs, rejects);
            var r := RolesRun(s, specs, rejects);
            && r.outcome == (if k < |specs| then Fatal(Thrown(specs[k].failure)) else Done)
            && r.state.roles == s.roles + Names(specs[..k])
    decreases |specs|
  {
    if specs != [] {
      var h, t := specs[0], specs[1..];
      var first := RoleRun(s, h, rejects);
      if first.outcome.Fatal? {
        assert specs[..0] == [];
      } else {
        DistinctHead(specs);
        var s1 := first.state;
        RolesRunStops(s1, t, rejects);
        var k1 := FirstRejected(s1.roles, t, rejects);
        assert s1.roles == s.roles + {h.name};
        FirstRejectedCons(s, specs, rejects, 0);
        assert specs[..k1 + 1] == [h] + t[..k1];
        NamesCons(h, t[..k1]);
        assert RolesRun(s, specs, rejects) == RolesRun(s1, t, rejects);
      }
    }
  }

  /**
   * Assembling a trace: a run whose log after the first step is `mid`
   * (the old log plus that step's calls) and which then makes `tail`,
   * equal to `rest`, has made `head + rest` after the old log.
   */
  lemma AssembleTrace(log: seq<Call>, mid: seq<Call>, head: seq<Call>, final: seq<Call>,
                      tail: seq<Call>, rest: seq<Call>, whole: seq<Call>)
    requires mid == log + head && final == mid + tail && tail == rest && whole == head + rest
    ensures final == log + whole
  {
  }

  /**
   * The inductive step of RolesRunTrace: if the rest of the list makes the
   * trace its first rejection predicts, so does the whole list.
   */
  lemma RolesRunTraceStep(s: StoreState, specs: seq<RoleSpec>, rejects: set<Call>, m: nat)
    requires specs != [] && specs[0].name !in Names(specs[1..])
    requires RoleRun(s, specs[0], rejects).outcome.Done?
    requires m == Attempted(FirstRejected(RoleRun(s, specs[0], rejects).state.roles, specs[1..], rejects), |specs| - 1)
    requires var s1 := RoleRun(s, specs[0], rejects).state;
             RolesRun(s1, specs[1..], rejects).state.log == s1.log + RoleTrace(s1.roles, specs[1..], m)
    ensures var k := FirstRejected(s.roles, specs, rejects);
            RolesRun(s, specs, rejects).state.log == s.log + RoleTrace(s.roles, specs, Attempted(k, |specs|))
  {
    var h, t := specs[0], specs[1..];
    var s1 := RoleRun(s, h, rejects).state;
    var head := [RoleExists(h.name)] + (if h.name in s.roles then [] else [CreateRole(h.name)]);
    FirstRejectedCons(s, specs, rejects, m);
    assert Attempted(FirstRejected(s.roles, specs, rejects), |specs|) == m + 1;
    AssembleTrace(s.log, s1.log, head, RolesRun(s1, t, rejects).state.log,
                  RoleTrace(s1.roles, t, m), RoleTrace(s.roles, t, m), RoleTrace(s.roles, specs, m + 1));
  }

  /**
   * With distinct role names, a role run makes exactly the checks and
   * creates of the roles up to and including the one that fails, and none
   * for the roles after it.
   */
  lemma {:induction false} RolesRunTrace(s: StoreState, specs: seq<RoleSpec>, rejects: set<Call>)
    requires DistinctNames(specs)
    ensures var k := FirstRejected(s.roles, specs, rejects);
            RolesRun(s, specs, rejects).state.log == s.log + RoleTrace(s.roles, specs, Attempted(k, |specs|))
    decreases |specs|
  {
    if specs != [] {
      var h := specs[0];
      var first := RoleRun(s, h, rejects);
      if first.outcome.Fatal? {
        assert FirstRejected(s.roles, specs, rejects) == 0;
        assert RoleTrace(s.roles, specs, 1) == [RoleExists(h.name), CreateRole(h.name)];
      } else {
        DistinctHead(specs);
        var t := specs[1..];
        RolesRunTrace(first.state, t, rejects);
        RolesRunTraceStep(s, specs, rejects, Attempted(FirstRejected(first.state.roles, t, rejects), |t|));
      }
    }
  }

  /** A role run only adds roles of the list, and never touches accounts, memberships or products. */
  lemma {:induction false} RolesRunFrame(s: StoreState, specs: seq<RoleSpec>, rejects: set<Call>)
    ensures var r := RolesRun(s, specs, rejects);
            && s.roles <= r.state.roles <= s.roles + Names(specs)
            && r.state.users == s.users && r.state.memberships == s.memberships
            && r.state.products == s.products && r.state.pending == s.pending
    decreases |specs|
  {
    if specs != [] {
      var first := RoleRun(s, specs[0], rejects);
      assert specs == [specs[0]] + specs[1..];
      NamesCons(specs[0], specs[1..]);
      if !first.outcome.Fatal? {
        RolesRunFrame(first.state, specs[1..], rejects);
      }
    }
  }

  /** One role's step only makes role calls, and when it fails its last call is the rejected creation. */
  lemma RoleRunCalls(s: StoreState, spec: RoleSpec, rejects: set<Call>)
    ensures var r := RoleRun(s, spec, rejects);
            && (forall c :: c in r.state.log[|s.log|..] ==> Stage(c) == 1)
            && (r.outcome.Fatal? ==> RejectedLast(s.log, r.state.log, rejects))
  {
    var r := RoleRun(s, spec, rejects);
    if spec.name in s.roles {
      assert r.state.log[|s.log|..] == [RoleExists(spec.name)];
    } else {
      assert r.state.log[|s.log|..] == [RoleExists(spec.name), CreateRole(spec.name)];
    }
  }

  /** A role run only makes role calls, and when it fails the last call it made is a rejected role creation. */
  lemma {:induction false} RolesRunCalls(s: StoreState, specs: seq<RoleSpec>, rejects: set<Call>)
    ensures var r := RolesRun(s, specs, rejects);
            && s.log <= r.state.log
            && (forall c :: c in r.state.log[|s.log|..] ==> Stage(c) == 1)
            && (r.outcome.Fatal? ==> RejectedLast(s.log, r.state.log, rejects))
    decreases |specs|
  {
    if specs != [] {
      var first := RoleRun(s, specs[0], rejects);
      var s1 := first.state;
      RoleRunCalls(s, specs[0], rejects);
      if !first.outcome.Fatal? {
        RolesRunCalls(s1, specs[1..], rejects);
        var r := RolesRun(s1, specs[1..], rejects);
        assert r.state.log[|s.log|..] == s1.log[|s.log|..] + r.state.log[|s1.log|..];
      }
    }
  }

  lemma RoleSpecsDistinct()
    ensures DistinctNames(RoleSpecs)
    ensures Names(RoleSpecs) == {AdminRole, CustomerRole, SuperAdminRole}
  {
    assert RoleSpecs[0].name == AdminRole && RoleSpecs[1].name == CustomerRole && RoleSpecs[2].name == SuperAdminRole;
  }

  /**
   * Ensuring the three roles succeeds exactly when no missing role is
   * rejected, and afterwards Admin, Customer and SuperAdmin all exist; no
   * other role is ever created.
   */
  lemma RolesEnsured(s: StoreState, rejects: set<Call>)
    ensures var r := RolesRun(s, RoleSpecs, rejects);
            && (r.outcome.Done? <==>
                  (AdminRole in s.roles || CreateRole(AdminRole) !in rejects) &&
                  (CustomerRole in s.roles || CreateRole(CustomerRole) !in rejects) &&
                  (SuperAdminRole in s.roles || CreateRole(SuperAdminRole) !in rejects))
            && (r.outcome.Done? ==> AdminRole in r.state.roles && CustomerRole in r.state.roles && SuperAdminRole in r.state.roles)
            && s.roles <= r.state.roles <= s.roles + {AdminRole, CustomerRole, SuperAdminRole}
  {
    RoleSpecsDistinct();
    RolesRunStops(s, RoleSpecs, rejects);
    RolesRunFrame(s, RoleSpecs, rejects);
    var k := FirstRejected(s.roles, RoleSpecs, rejects);
    if k == 3 {
      assert RoleSpecs[..k] == RoleSpecs;
    }
  }

  /**
   * When the three roles exist, ensuring them creates nothing and cannot
   * fail, whatever the store would reject: it only checks each one.
   */
  lemma RolesIdempotent(s: StoreState, rejects: set<Call>)
    requires AdminRole in s.roles && CustomerRole in s.roles && SuperAdminRole in s.roles
    ensures RolesRun(s, RoleSpecs, rejects) ==
      Run(s.(log := s.log + [RoleExists(AdminRole), RoleExists(CustomerRole), RoleExists(SuperAdminRole)]), Done)
  {
    var s1 := Logged(s, RoleExists(AdminRole));
    var s2 := Logged(s1, RoleExists(CustomerRole));
    var s3 := Logged(s2, RoleExists(SuperAdminRole));
    var t1, t2, t3 := RoleSpecs[1..], RoleSpecs[2..], RoleSpecs[3..];
    assert t1[1..] == t2 && t2[1..] == t3 && t3 == [];
    assert RolesRun(s3, t3, rejects) == Run(s3, Done);
    assert RolesRun(s2, t2, rejects) == Run(s3, Done);
    assert RolesRun(s1, t1, rejects) == Run(s3, Done);
    assert s3 == s.(log := s.log + [RoleExists(AdminRole), RoleExists(CustomerRole), RoleExists(SuperAdminRole)]);
  }

  /** A role named nowhere among the first `n` of the list is neither checked nor created by their trace. */
  lemma {:induction false} RoleTraceOmits(roles: set<string>, specs: seq<RoleSpec>, n: nat, x: string)
    requires forall i :: 0 <= i < n && i < |specs| ==> specs[i].name != x
    ensures RoleExists(x) !in RoleTrace(roles, specs, n) && CreateRole(x) !in RoleTrace(roles, specs, n)
    decreases |specs|
  {
    if specs != [] && n != 0 {
      var t := specs[1..];
      forall i | 0 <= i < n - 1 && i < |t|
        ensures t[i].name != x
      {
        assert t[i] == specs[i + 1];
      }
      RoleTraceOmits(roles, t, n - 1, x);
    }
  }

  /** Once a role creation fails, no later role of the list is checked or created. */
  lemma RolesAbortEarly(s: StoreState, specs: seq<RoleSpec>, rejects: set<Call>, m: nat)
    requires DistinctNames(specs)
    requires FirstRejected(s.roles, specs, rejects) < m < |specs|
    ensures RolesRun(s, specs, rejects).outcome.Fatal?
    ensures s.log <= RolesRun(s, specs, rejects).state.log
    ensures RoleExists(specs[m].name) !in RolesRun(s, specs, rejects).state.log[|s.log|..]
    ensures CreateRole(specs[m].name) !in RolesRun(s, specs, rejects).state.log[|s.log|..]
    ensures specs[m].name in RolesRun(s, specs, rejects).state.roles <==> specs[m].name in s.roles
  {
    var k := FirstRejected(s.roles, specs, rejects);
    RolesRunStops(s, specs, rejects);
    RolesRunTrace(s, specs, rejects);
    var r := RolesRun(s, specs, rejects);
    assert Attempted(k, |specs|) == k + 1;
    assert r.state.log[|s.log|..] == RoleTrace(s.roles, specs, k + 1);
    RoleTraceOmits(s.roles, specs, k + 1, specs[m].name);
    var p := specs[..k];
    forall i | 0 <= i < k
      ensures p[i].name != specs[m].name
    {
      assert p[i] == specs[i];
    }
  }

  // ---------------------------------------------------------------------------
  // The whole start-up
  // ---------------------------------------------------------------------------

  /** Which stage of the start-up makes a call: migrate, roles, admin, catalog, final save. */
  function Stage(c: Call): nat
  {
    match c
    case Migrate => 0
    case RoleExists(_) => 1
    case CreateRole(_) => 1
    case FindByEmail(_) => 2
    case CreateUser(_) => 2
    case IsInRole(_, _) => 2
    case AddToRole(_, _) => 2
    case AnyProducts => 3
    case AddProducts(_) => 3
    case SaveChanges => 4
  }

  predicate InStageOrder(calls: seq<Call>)
  {
    forall a, b :: 0 <= a < b < |calls| ==> Stage(calls[a]) <= Stage(calls[b])
  }

  /** `after` is `before` followed by calls in stage order whose stages lie in [lo, hi]. */
  predicate Extends(before: seq<Call>, after: seq<Call>, lo: nat, hi: nat)
  {
    && before <= after
    && InStageOrder(after[|before|..])
    && forall c :: c in after[|before|..] ==> lo <= Stage(c) <= hi
  }

  /** The last call of `after` was made after `before` and was rejected. */
  predicate RejectedLast(before: seq<Call>, after: seq<Call>, rejects: set<Call>)
  {
    |before| < |after| && after[|after| - 1] in rejects
  }

  lemma ExtendsUniform(before: seq<Call>, after: seq<Call>, n: nat)
    requires before <= after
    requires forall c :: c in after[|before|..] ==> Stage(c) == n
    ensures Extends(before, after, n, n)
  {
    var tail := after[|before|..];
    forall a, b | 0 <= a < b < |tail| ensures Stage(tail[a]) <= Stage(tail[b]) {
      assert tail[a] in tail && tail[b] in tail;
    }
  }

  /** Appending calls in stage order whose stages lie in [lo, hi] extends the log. */
  lemma ExtendsWith(before: seq<Call>, calls: seq<Call>, lo: nat, hi: nat)
    requires InStageOrder(calls) && forall c :: c in calls ==> lo <= Stage(c) <= hi
    ensures Extends(before, before + calls, lo, hi)
  {
    assert (before + calls)[|before|..] == calls;
  }

  lemma ExtendsTrans(x: seq<Call>, y: seq<Call>, z: seq<Call>, a: nat, b: nat, c: nat, d: nat)
    requires Extends(x, y, a, b) && Extends(y, z, c, d) && a <= b <= c <= d
    ensures Extends(x, z, a, d)
  {
    var p, q := y[|x|..], z[|y|..];
    assert z[|x|..] == p + q;
    forall e | e in p + q ensures a <= Stage(e) <= d {
      assert e in p || e in q;
    }
    forall i, j | 0 <= i < j < |p + q| ensures Stage((p + q)[i]) <= Stage((p + q)[j]) {
      if j < |p| {
        assert (p + q)[i] == p[i] && (p + q)[j] == p[j];
      } else if i >= |p| {
        assert (p + q)[i] == q[i - |p|] && (p + q)[j] == q[j - |p|];
      } else {
        assert (p + q)[i] == p[i] && p[i] in p;
        assert (p + q)[j] == q[j - |p|] && q[j - |p|] in q;
      }
    }
  }

  /** The grant only makes identity calls, and when it fails its last call was rejected. */
  lemma GrantRunLog(s: StoreState, email: string, rejects: set<Call>)
    ensures var r := GrantRun(s, email, rejects);
            && Extends(s.log, r.state.log, 2, 2)
            && (r.outcome.Fatal? ==> RejectedLast(s.log, r.state.log, rejects))
  {
    var r := GrantRun(s, email, rejects);
    if (email, SuperAdminRole) in s.memberships {
      assert r.state.log[|s.log|..] == [IsInRole(email, SuperAdminRole)];
    } else {
      assert r.state.log[|s.log|..] == [IsInRole(email, SuperAdminRole), AddToRole(email, SuperAdminRole)];
    }
    ExtendsUniform(s.log, r.state.log, 2);
  }

  /** The admin step only makes identity calls, and when it fails its last call was rejected. */
  lemma AdminRunLog(s: StoreState, secrets: AdminSecrets, rejects: set<Call>)
    ensures var r := AdminRun(s, secrets, rejects);
            && Extends(s.log, r.state.log, 2, 2)
            && (r.outcome.Fatal? ==> RejectedLast(s.log, r.state.log, rejects))
  {
    var r := AdminRun(s, secrets, rejects);
    var looked := Logged(s, FindByEmail(secrets.email));
    ExtendsUniform(s.log, looked.log, 2);
    if secrets.email in s.users {
      GrantRunLog(looked, secrets.email, rejects);
      ExtendsTrans(s.log, looked.log, r.state.log, 2, 2, 2, 2);
    } else {
      var tried := Logged(looked, CreateUser(secrets.email));
      ExtendsUniform(looked.log, tried.log, 2);
      ExtendsTrans(s.log, looked.log, tried.log, 2, 2, 2, 2);
      if CreateUser(secrets.email) !in rejects {
        var made := tried.(users := s.users[secrets.email := Account(secrets.email, secrets.userName)]);
        GrantRunLog(made, secrets.email, rejects);
        ExtendsTrans(s.log, made.log, r.state.log, 2, 2, 2, 2);
      }
    }
  }

  /** The catalog step checks for products, then possibly adds the demo catalog and saves it. */
  lemma ProductsRunLog(s: StoreState, rejects: set<Call>)
    ensures var r := ProductsRun(s, rejects);
            && Extends(s.log, r.state.log, 3, 4)
            && (r.outcome.Fatal? ==> RejectedLast(s.log, r.state.log, rejects))
  {
    var r := ProductsRun(s, rejects);
    if s.products != 0 {
      assert r.state.log == s.log + [AnyProducts];
      ExtendsWith(s.log, [AnyProducts], 3, 4);
    } else {
      var calls := [AnyProducts, AddProducts(DemoProductCount), SaveChanges];
      CatalogCallsOrdered(calls);
      AppendThree(s.log, AnyProducts, AddProducts(DemoProductCount), SaveChanges);
      assert r.state.log == s.log + calls;
      ExtendsWith(s.log, calls, 3, 4);
    }
  }

  lemma CatalogCallsOrdered(calls: seq<Call>)
    requires calls == [AnyProducts, AddProducts(DemoProductCount), SaveChanges]
    ensures InStageOrder(calls) && forall c :: c in calls ==> 3 <= Stage(c) <= 4
  {
    assert Stage(calls[0]) == 3 && Stage(calls[1]) == 3 && Stage(calls[2]) == 4;
  }

  lemma AppendThree(log: seq<Call>, a: Call, b: Call, c: Call)
    ensures log + [a] + [b] + [c] == log + [a, b, c]
  {
  }

  lemma SaveRunLog(s: StoreState, rejects: set<Call>)
    ensures var r := SaveRun(s, rejects);
            && Extends(s.log, r.state.log, 4, 4)
            && (r.outcome.Fatal? ==> RejectedLast(s.log, r.state.log, rejects))
  {
    var r := SaveRun(s, rejects);
    assert r.state.log[|s.log|..] == [SaveChanges];
    ExtendsUniform(s.log, r.state.log, 4);
  }

  /**
   * A start-up run succeeds only with the three roles present, the admin
   * account present and a SuperAdmin, at least one product saved and
   * nothing left pending.
   */
  lemma SeedRunEnsures(s: StoreState, secrets: AdminSecrets, rejects: set<Call>)
    ensures var r := SeedRun(s, secrets, rejects);
            r.outcome.Done? ==>
              && AdminRole in r.state.roles && CustomerRole in r.state.roles && SuperAdminRole in r.state.roles
              && secrets.email in r.state.users
              && (secrets.email, SuperAdminRole) in r.state.memberships
              && r.state.products != 0 && r.state.pending == 0
  {
    var migrated := Logged(s, Migrate);
    if Migrate !in rejects {
      RolesEnsured(migrated, rejects);
    }
  }

  /** The catalog step and the save make catalog calls, then save calls; a success ends by saving, a failure with the rejected call. */
  lemma CatalogAndSaveLog(s: StoreState, rejects: set<Call>)
    ensures var r := CatalogAndSave(s, rejects);
            && Extends(s.log, r.state.log, 3, 4)
            && (r.outcome.Done? ==> r.state.log[|r.state.log| - 1] == SaveChanges)
            && (r.outcome.Fatal? ==> RejectedLast(s.log, r.state.log, rejects))
  {
    var catalog := ProductsRun(s, rejects);
    ProductsRunLog(s, rejects);
    if !catalog.outcome.Fatal? {
      SaveRunLog(catalog.state, rejects);
      ExtendsTrans(s.log, catalog.state.log, SaveRun(catalog.state, rejects).state.log, 3, 4, 4, 4);
    }
  }

  /** The admin step and what follows make identity, catalog and save calls in that order. */
  lemma AdminAndAfterLog(s: StoreState, secrets: AdminSecrets, rejects: set<Call>)
    ensures var r := AdminAndAfter(s, secrets, rejects);
            && Extends(s.log, r.state.log, 2, 4)
            && (r.outcome.Done? ==> r.state.log[|r.state.log| - 1] == SaveChanges)
            && (r.outcome.Fatal? ==> RejectedLast(s.log, r.state.log, rejects))
  {
    var admin := AdminRun(s, secrets, rejects);
    AdminRunLog(s, secrets, rejects);
    if !admin.outcome.Fatal? {
      CatalogAndSaveLog(admin.state, rejects);
      ExtendsTrans(s.log, admin.state.log, CatalogAndSave(admin.state, rejects).state.log, 2, 2, 3, 4);
    }
  }

  /**
   * The calls of a run come in stage order (migrate, roles, admin, catalog,
   * save) after the log it was given; a successful run starts by migrating
   * and ends by saving, and a failed run ends with the call that was
   * rejected: nothing is attempted after a failure.
   */
  lemma SeedRunOrder(s: StoreState, secrets: AdminSecrets, rejects: set<Call>)
    ensures var r := SeedRun(s, secrets, rejects);
            && s.log < r.state.log
            && Extends(s.log, r.state.log, 0, 4)
            && (r.outcome.Done? ==> r.state.log[|s.log|] == Migrate && r.state.log[|r.state.log| - 1] == SaveChanges)
            && (r.outcome.Fatal? ==> RejectedLast(s.log, r.state.log, rejects))
  {
    var migrated := Logged(s, Migrate);
    ExtendsUniform(s.log, migrated.log, 0);
    if Migrate !in rejects {
      var roles := RolesRun(migrated, RoleSpecs, rejects);
      RolesRunCalls(migrated, RoleSpecs, rejects);
      ExtendsUniform(migrated.log, roles.state.log, 1);
      ExtendsTrans(s.log, migrated.log, roles.state.log, 0, 0, 1, 1);
      if !roles.outcome.Fatal? {
        var rest := AdminAndAfter(roles.state, secrets, rejects);
        AdminAndAfterLog(roles.state, secrets, rejects);
        ExtendsTrans(s.log, roles.state.log, rest.state.log, 0, 1, 2, 4);
        assert migrated.log[|s.log|] == Migrate;
      }
    }
  }

  /**
   * Re-running the start-up after a successful run changes no role, account,
   * membership or product, whatever the store rejects this time; it fails
   * only if migrating or the final save fails.
   */
  lemma SeedRunIdempotent(s: StoreState, secrets: AdminSecrets, rejects: set<Call>, rejectsAgain: set<Call>)
    requires SeedRun(s, secrets, rejects).outcome.Done?
    ensures var first := SeedRun(s, secrets, rejects).state;
            var second := SeedRun(first, secrets, rejectsAgain);
            && second.state.(log := first.log) == first
            && second.outcome == (if Migrate in rejectsAgain then Fatal(StoreFailed(Migrate))
                                  else if SaveChanges in rejectsAgain then Fatal(StoreFailed(SaveChanges))
                                  else Done)
  {
    var first := SeedRun(s, secrets, rejects).state;
    SeedRunEnsures(s, secrets, rejects);
    RolesIdempotent(Logged(first, Migrate), rejectsAgain);
  }

  /** The steps before the catalog make no catalog call and leave products and pending additions alone. */
  lemma BeforeCatalog(s: StoreState, secrets: AdminSecrets, rejects: set<Call>)
    requires Migrate !in rejects
    ensures var roles := RolesRun(Logged(s, Migrate), RoleSpecs, rejects);
            var admin := AdminRun(roles.state, secrets, rejects);
            && Extends(s.log, roles.state.log, 0, 1)
            && Extends(s.log, admin.state.log, 0, 2)
            && roles.state.products == s.products && roles.state.pending == s.pending
            && admin.state.products == s.products && admin.state.pending == s.pending
  {
    var migrated := Logged(s, Migrate);
    ExtendsUniform(s.log, migrated.log, 0);
    var roles := RolesRun(migrated, RoleSpecs, rejects);
    RolesRunFrame(migrated, RoleSpecs, rejects);
    RolesRunCalls(migrated, RoleSpecs, rejects);
    ExtendsUniform(migrated.log, roles.state.log, 1);
    ExtendsTrans(s.log, migrated.log, roles.state.log, 0, 0, 1, 1);
    AdminRunLog(roles.state, secrets, rejects);
    AdminRunFrame(roles.state, secrets, rejects);
    ExtendsTrans(s.log, roles.state.log, AdminRun(roles.state, secrets, rejects).state.log, 0, 1, 2, 2);
  }

  /** A call made neither in the first part of an extension nor in the second is not made in the whole. */
  lemma NotMadeInEither(x: seq<Call>, y: seq<Call>, z: seq<Call>, c: Call)
    requires x <= y <= z && c !in y[|x|..] && c !in z[|y|..]
    ensures c !in z[|x|..]
  {
    assert z[|x|..] == y[|x|..] + z[|y|..];
  }

  /** The admin step only makes identity calls. */
  lemma AdminRunCalls(s: StoreState, secrets: AdminSecrets, rejects: set<Call>)
    ensures var r := AdminRun(s, secrets, rejects);
            s.log <= r.state.log && forall c :: c in r.state.log[|s.log|..] ==> Stage(c) == 2
  {
    AdminRunLog(s, secrets, rejects);
  }

  /** With products present, the catalog step only checks for them, then the save runs. */
  lemma CatalogAndSaveWithProducts(s: StoreState, rejects: set<Call>)
    requires s.products != 0
    ensures var r := CatalogAndSave(s, rejects);
            && r.state.log == s.log + [AnyProducts, SaveChanges]
            && r.state.products == (if r.outcome.Done? then s.products + s.pending else s.products)
  {
  }

  /** From the admin step on, a run that finds products only checks for them before the final save. */
  lemma AdminAndAfterWithProducts(s: StoreState, secrets: AdminSecrets, rejects: set<Call>)
    requires s.products != 0
    ensures var r := AdminAndAfter(s, secrets, rejects);
            && s.log <= r.state.log
            && AddProducts(DemoProductCount) !in r.state.log[|s.log|..]
            && r.state.products == (if r.outcome.Done? then s.products + s.pending else s.products)
  {
    var admin := AdminRun(s, secrets, rejects);
    AdminRunCalls(s, secrets, rejects);
    AdminRunFrame(s, secrets, rejects);
    if !admin.outcome.Fatal? {
      var r := CatalogAndSave(admin.state, rejects);
      CatalogAndSaveWithProducts(admin.state, rejects);
      assert r.state.log[|admin.state.log|..] == [AnyProducts, SaveChanges];
      NotMadeInEither(s.log, admin.state.log, r.state.log, AddProducts(DemoProductCount));
    }
  }

  /**
   * A run that finds products never adds the demo catalog; its product count
   * only changes by saving what was already pending.
   */
  lemma SeedRunSeedsOnlyEmpty(s: StoreState, secrets: AdminSecrets, rejects: set<Call>)
    requires s.products != 0
    ensures var r := SeedRun(s, secrets, rejects);
            && s.log <= r.state.log
            && AddProducts(DemoProductCount) !in r.state.log[|s.log|..]
            && r.state.products == (if r.outcome.Done? then s.products + s.pending else s.products)
  {
    var r := SeedRun(s, secrets, rejects);
    var migrated := Logged(s, Migrate);
    assert migrated.log[|s.log|..] == [Migrate];
    if Migrate !in rejects {
      var roles := RolesRun(migrated, RoleSpecs, rejects);
      RolesRunCalls(migrated, RoleSpecs, rejects);
      RolesRunFrame(migrated, RoleSpecs, rejects);
      NotMadeInEither(s.log, migrated.log, roles.state.log, AddProducts(DemoProductCount));
      if !roles.outcome.Fatal? {
        AdminAndAfterWithProducts(roles.state, secrets, rejects);
        NotMadeInEither(s.log, roles.state.log, r.state.log, AddProducts(DemoProductCount));
      }
    }
  }

  // ---------------------------------------------------------------------------
  // The imperative steps follow the specification
  // ---------------------------------------------------------------------------

  method EnsureRole(store: Store, spec: RoleSpec) returns (outcome: Outcome)
    modifies store
    ensures Run(store.State(), outcome) == RoleRun(old(store.State()), spec, store.rejects)
  {
    var found := store.RoleExists(spec.name);
    if !found {
      var ok := store.CreateRole(spec.name);
      if !ok {
        return Fatal(Thrown(spec.failure));
      }
    }
    return Done;
  }

  method EnsureRolesAreCreated(store: Store) returns (outcome: Outcome)
    modifies store
    ensures Run(store.State(), outcome) == RolesRun(old(store.State()), RoleSpecs, store.rejects)
  {
    ghost var s0 := store.State();
    outcome := EnsureRole(store, RoleSpecs[0]);
    if outcome.Fatal? {
      return;
    }
    ghost var s1 := store.State();
    outcome := EnsureRole(store, RoleSpecs[1]);
    if outcome.Fatal? {
      assert RolesRun(s1, RoleSpecs[1..], store.rejects) == Run(store.State(), outcome);
      return;
    }
    ghost var s2 := store.State();
    outcome := EnsureRole(store, RoleSpecs[2]);
    assert RolesRun(s2, RoleSpecs[2..], store.rejects) == Run(store.State(), outcome) by {
      assert RoleSpecs[2..][1..] == [];
    }
    assert RolesRun(s1, RoleSpecs[1..], store.rejects) == Run(store.State(), outcome) by {
      assert RoleSpecs[1..][1..] == RoleSpecs[2..];
    }
  }

  method EnsureAdminIsCreated(store: Store, secrets: AdminSecrets) returns (outcome: Outcome)
    modifies store
    ensures Run(store.State(), outcome) == AdminRun(old(store.State()), secrets, store.rejects)
  {
    var admin := store.FindByEmail(secrets.email);
    if admin.None? {
      var account := Account(secrets.email, secrets.userName);
      var created := store.CreateUser(account, secrets.password);
      if !created {
        return Fatal(Thrown(AdminCreateFailure));
      }
    }
    var member := store.IsInRole(secrets.email, SuperAdminRole);
    if member {
      return Done;
    }
    var granted := store.AddToRole(secrets.email, SuperAdminRole);
    if !granted {
      return Fatal(Thrown(AdminGrantFailure));
    }
    return Done;
  }

  /** The demo catalog is added in one batch and saved (the catalog's contents are not modelled). */
  method SeedInitialProducts(store: Store) returns (outcome: Outcome)
    modifies store
    ensures Run(store.State(), outcome) ==
      SaveRun(Logged(old(store.State()), AddProducts(DemoProductCount)).(pending := old(store.pending) + DemoProductCount), store.rejects)
  {
    store.AddProducts(DemoProductCount);
    var saved := store.SaveChanges();
    outcome := if saved then Done else Fatal(StoreFailed(SaveChanges));
  }

  method EnsureInitialProductsAreCreated(store: Store) returns (outcome: Outcome)
    modifies store
    ensures Run(store.State(), outcome) == ProductsRun(old(store.State()), store.rejects)
  {
    var any := store.AnyProducts();
    if !any {
      outcome := SeedInitialProducts(store);
    } else {
      outcome := Done;
    }
  }

  method SeedDataAsync(store: Store, secrets: AdminSecrets) returns (outcome: Outcome)
    modifies store
    ensures Run(store.State(), outcome) == SeedRun(old(store.State()), secrets, store.rejects)
  {
    var migrated := store.Migrate();
    if !migrated {
      return Fatal(StoreFailed(Migrate));
    }
    outcome := EnsureRolesAreCreated(store);
    if outcome.Fatal? {
      return;
    }
    outcome := EnsureAdminIsCreated(store, secrets);
    if outcome.Fatal? {
      return;
    }
    outcome := EnsureInitialProductsAreCreated(store);
    if outcome.Fatal? {
      return;
    }
    var saved := store.SaveChanges();
    outcome := if saved then Done else Fatal(StoreFailed(SaveChanges));
  }
}
