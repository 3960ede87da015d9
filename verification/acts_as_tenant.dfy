/**
 * The module-level state of acts_as_tenant: the registry from model class
 * name to tenant name, the current tenant of the running request, and
 * `with_tenant`, which runs a block under a tenant and restores the previous
 * one afterwards.
 */
module ActsAsTenant {
  import opened Wrappers
  import opened Inflection

  /** A tenant object: its (possibly namespaced) class name and its id, nil while unsaved. */
  datatype Tenant = Tenant(className: string, id: Option<int>)

  /** The exceptions that surface through the core; `BlockError` is one raised by a caller's block. */
  datatype Error =
    | ArgumentError
    | NoTenantSet
    | TenantIsImmutable
    | ModelNotScopedByTenant
    | BlockError(name: string)

  /** A Ruby value a block can evaluate to. */
  datatype Value = Nil | Int(n: int) | TenantRef(tenant: Tenant)

  /** How a call ends: with a value or with an exception. */
  datatype Outcome = Returned(value: Value) | Raised(error: Error)

  /**
   * What a block handed to `with_tenant` does to the tenant context, step by
   * step: end with a value or an exception, evaluate to the current tenant,
   * assign the current tenant directly, or run a nested `with_tenant` (whose
   * own block may be absent) before going on.
   */
  datatype Block =
    | Return(value: Value)
    | Fail(error: Error)
    | ReturnCurrent
    | Assign(tenant: Option<Tenant>, rest: Block)
    | Nest(tenant: Option<Tenant>, inner: Option<Block>, rest: Block)

  /** The outcome of running something, with the current tenant it leaves behind. */
  datatype Run = Run(outcome: Outcome, current: Option<Tenant>)

  /** The current tenant as a Ruby value. */
  function ValueOf(t: Option<Tenant>): Value {
    if t.Some? then TenantRef(t.value) else Nil
  }

  /** Running block `b` with `current` as the current tenant. */
  function RunBlock(current: Option<Tenant>, b: Block): Run
    decreases b
  {
    match b
    case Return(v) => Run(Returned(v), current)
    case Fail(e) => Run(Raised(e), current)
    case ReturnCurrent => Run(Returned(ValueOf(current)), current)
    case Assign(t, rest) => RunBlock(t, rest)
    case Nest(t, inner, rest) =>
      var r := RunWithTenant(current, t, inner);
      if r.outcome.Raised? then r else RunBlock(r.current, rest)
  }

  /**
   * `with_tenant(tenant, &block)` entered with `current` as the current tenant.
   * Without a block it raises ArgumentError before the old tenant is saved,
   * so the `ensure` clause restores nil.
   */
  function RunWithTenant(current: Option<Tenant>, tenant: Option<Tenant>, block: Option<Block>): (r: Run)
    ensures block.Some? ==> r.current == current
    ensures block.None? ==> r == Run(Raised(ArgumentError), None)
    decreases block
  {
    if block.None? then Run(Raised(ArgumentError), None)
    else Run(RunBlock(tenant, block.value).outcome, current)
  }

  /** `b` never assigns the current tenant directly (nested `with_tenant` calls are allowed). */
  predicate AssignsNothing(b: Block) {
    match b
    case Assign(_, _) => false
    case Nest(_, inner, rest) => (inner.None? || AssignsNothing(inner.value)) && AssignsNothing(rest)
    case _ => true
  }

  /**
   * A block that never assigns the current tenant itself leaves it as it was,
   * except when a nested `with_tenant` without a block raised ArgumentError,
   * which leaves nil behind.
   */
  lemma {:induction false} AssignsNothingKeepsTenant(current: Option<Tenant>, b: Block)
    requires AssignsNothing(b)
    ensures RunBlock(current, b).current == current ||
            (RunBlock(current, b).outcome == Raised(ArgumentError) && RunBlock(current, b).current == None)
    decreases b
  {
    match b
    case Nest(t, inner, rest) =>
      var r := RunWithTenant(current, t, inner);
      if r.outcome.Returned? {
        AssignsNothingKeepsTenant(r.current, rest);
      }
    case _ =>
  }

  /**
   * Nested activation: inside `with_tenant(a)`, a nested `with_tenant(b)` sees
   * `b`, and once it ends - normally or by an exception - the outer block sees
   * `a` again; the outer call restores whatever was current before it.
   */
  lemma NestedWithTenant(current: Option<Tenant>, a: Tenant, b: Tenant, inner: Block)
    ensures RunBlock(Some(b), inner).outcome.Raised? ==>
              RunWithTenant(current, Some(a), Some(Nest(Some(b), Some(inner), ReturnCurrent)))
                == Run(RunBlock(Some(b), inner).outcome, current)
    ensures RunBlock(Some(b), inner).outcome.Returned? ==>
              RunWithTenant(current, Some(a), Some(Nest(Some(b), Some(inner), ReturnCurrent)))
                == Run(Returned(TenantRef(a)), current)
    ensures RunWithTenant(current, Some(a), Some(Nest(Some(b), Some(ReturnCurrent), ReturnCurrent))) ==
            RunWithTenant(current, Some(a), Some(ReturnCurrent))
  {
    var outer := Nest(Some(b), Some(inner), ReturnCurrent);
    var r := RunWithTenant(Some(a), Some(b), Some(inner));
    assert r == Run(RunBlock(Some(b), inner).outcome, Some(a));
    assert RunBlock(Some(a), outer) == if r.outcome.Raised? then r else RunBlock(Some(a), ReturnCurrent);
    var seen := Nest(Some(b), Some(ReturnCurrent), ReturnCurrent);
    assert RunBlock(Some(a), seen) == RunBlock(Some(a), ReturnCurrent);
  }

  /** The type tag of a tenant (`current_tenant.class.name.demodulize.downcase.to_sym`); nil's class is NilClass. */
  function TypeTag(t: Option<Tenant>): (tag: string)
    ensures HasNoSep(tag)
    ensures forall i :: 0 <= i < |tag| ==> !IsUpper(tag[i])
    ensures t.None? ==> tag == "nilclass"
  {
    var name := if t.Some? then t.value.className else "NilClass";
    var segment := Demodulize(name);
    var tag := Downcase(segment);
    assert forall i :: IsSepAt(tag, i) ==> IsSepAt(segment, i);
    if t.None? then NilClassTag(); tag else tag
  }

  /** The class of nil is NilClass, whose tag is "nilclass". */
  lemma NilClassTag()
    ensures Downcase(Demodulize("NilClass")) == "nilclass"
  {
    DemodulizeDropsNamespace("", "NilClass");
    DowncaseNilClass("NilClass");
  }

  // The two literal facts below take a parameter so that the literal is not unfolded eagerly.
  lemma DowncaseNilClass(s: string)
    requires s == "NilClass"
    ensures Downcase(s) == "nilclass"
  {
  }

  /**
   * The tag ignores the namespace of the tenant class: "Foo::Account" and
   * "Account" both give "account".
   */
  lemma {:induction false} TypeTagIgnoresNamespace(ns: string, name: string, id: Option<int>, id': Option<int>)
    requires forall k :: 0 <= k < |name| ==> name[k] != ':'
    ensures TypeTag(Some(Tenant(ns + "::" + name, id))) == TypeTag(Some(Tenant(name, id'))) == Downcase(name)
  {
    DemodulizeDropsNamespace(ns, name);
  }

  /** The example of the type tag: a tenant of class Foo::Account is tagged "account". */
  lemma FooAccountTag(id: Option<int>)
    ensures TypeTag(Some(Tenant("Foo::Account", id))) == "account"
  {
    assert "Foo" + "::" + "Account" == "Foo::Account";
    TypeTagIgnoresNamespace("Foo", "Account", id, id);
    DowncaseAccount("Account");
  }

  lemma DowncaseAccount(s: string)
    requires s == "Account"
    ensures Downcase(s) == "account"
  {
  }

  /**
   * The process-wide state: the `@@tenant_klass` registry, the current tenant
   * held in the request store, and the `require_tenant` setting.
   */
  class Tenancy {
    /** Model class name to the name of its tenant (a symbol, kept without its colon). */
    var tenantKlass: map<string, string>
    var currentTenant: Option<Tenant>
    var requireTenant: bool

    constructor (requireTenant: bool)
      ensures tenantKlass == map[] && currentTenant == None && this.requireTenant == requireTenant
    {
      tenantKlass := map[];
      currentTenant := None;
      this.requireTenant := requireTenant;
    }

    /** The tenant registered for `className`, nil when it never registered. */
    function TenantKlass(className: string): (k: Option<string>)
      reads this
      ensures k.Some? <==> className in tenantKlass
      ensures k.Some? ==> k.value == tenantKlass[className]
    {
      if className in tenantKlass then Some(tenantKlass[className]) else None
    }

    /** The default foreign key: the tenant name ("" for nil) followed by "_id". */
    function Fkey(className: string): (k: string)
      reads this
      ensures |k| >= 3 && k[|k| - 3..] == "_id"
      ensures k[..|k| - 3] == TenantKlass(className).GetOr("")
    {
      TenantKlass(className).GetOr("") + "_id"
    }

    /** Records (or replaces) the tenant of `className`; no other entry changes. */
    method SetTenantKlass(className: string, klass: string)
      modifies this
      ensures tenantKlass == old(tenantKlass)[className := klass]
      ensures TenantKlass(className) == Some(klass) && Fkey(className) == klass + "_id"
      ensures forall c :: c != className ==> TenantKlass(c) == old(TenantKlass(c))
      ensures currentTenant == old(currentTenant) && requireTenant == old(requireTenant)
    {
      tenantKlass := tenantKlass[className := klass];
    }

    /** `current_tenant=`: replaces the current tenant, nothing else. */
    method SetCurrentTenant(tenant: Option<Tenant>)
      modifies this
      ensures currentTenant == tenant
      ensures tenantKlass == old(tenantKlass) && requireTenant == old(requireTenant)
    {
      currentTenant := tenant;
    }

    /** `current_tenant_klass`: the type tag of the current tenant. */
    function CurrentTenantKlass(): (tag: string)
      reads this
      ensures tag == TypeTag(currentTenant)
      ensures currentTenant.None? ==> tag == "nilclass"
    {
      TypeTag(currentTenant)
    }

    /**
     * `with_tenant`: with a block, saves the current tenant, activates
     * `tenant`, runs the block and restores the saved tenant whether the block
     * returned or raised; without a block, raises ArgumentError and leaves nil.
     */
    method WithTenant(tenant: Option<Tenant>, block: Option<Block>) returns (outcome: Outcome)
      modifies this
      ensures Run(outcome, currentTenant) == RunWithTenant(old(currentTenant), tenant, block)
      ensures block.Some? ==> currentTenant == old(currentTenant) && outcome == RunBlock(tenant, block.value).outcome
      ensures block.None? ==> outcome == Raised(ArgumentError) && currentTenant == None
      ensures tenantKlass == old(tenantKlass) && requireTenant == old(requireTenant)
      decreases block
    {
      // a Ruby local that is first assigned after the raise reads as nil in `ensure`
      var oldTenant: Option<Tenant> := None;
      if block.None? {
        outcome := Raised(ArgumentError);
      } else {
        oldTenant := currentTenant;
        currentTenant := tenant;
        outcome := CallBlock(block.value);
      }
      currentTenant := oldTenant;
    }

    /** `block.call`: runs the steps of `b` against the current tenant. */
    method CallBlock(b: Block) returns (outcome: Outcome)
      modifies this
      ensures Run(outcome, currentTenant) == RunBlock(old(currentTenant), b)
      ensures tenantKlass == old(tenantKlass) && requireTenant == old(requireTenant)
      decreases b
    {
      match b
      case Return(v) =>
        outcome := Returned(v);
      case Fail(e) =>
        outcome := Raised(e);
      case ReturnCurrent =>
        outcome := Returned(ValueOf(currentTenant));
      case Assign(t, rest) =>
        SetCurrentTenant(t);
        outcome := CallBlock(rest);
      case Nest(t, inner, rest) =>
        outcome := WithTenant(t, inner);
        if outcome.Returned? {
          outcome := CallBlock(rest);
        }
    }
  }
}
