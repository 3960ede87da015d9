/**
 * What `acts_as_tenant` installs on a model class, and
 * `validates_uniqueness_to_tenant`: the read scope, the tenant stamp on
 * create, the integrity check of the other `belongs_to` references, the
 * immutable tenant setters, the tenant reader short-cut and the tenant-wide
 * uniqueness scope. The code Ruby generates per model is written once here,
 * parameterised by the model's `Registration`.
 */
module ModelExtensions {
  import opened Wrappers
  import opened ActsAsTenant

  /** The message of an integrity-check error. */
  const InvalidAssociation := "association is invalid [ActsAsTenant]"

  datatype Macro = BelongsTo | HasOne | HasMany | HasAndBelongsToMany

  /** Reflection data of one declared association; `target` is the class it points to. */
  datatype Association = Association(name: string, macro: Macro, polymorphic: bool, foreignKey: string, target: string)

  /** The options `acts_as_tenant` keeps: `:foreign_key` and `:class_name`. */
  datatype Options = Options(foreignKey: Option<string>, className: Option<string>)

  /**
   * What one `acts_as_tenant` call fixes for its model: the class name, the
   * tenant name, the foreign key the generated code closes over, and the
   * associations that got an integrity check.
   */
  datatype Registration = Registration(className: string, tenant: string, fkey: string, checked: seq<Association>)

  /** The result of the `with_current_tenant` scope: it raises, filters `column = value`, or adds nothing. */
  datatype Filter = NoTenantSetError | NoFilter | Eq(column: string, value: Option<int>)

  /** The result of a setter: it wrote, or it raised. */
  datatype Status = Ok | Failed(error: Error)

  /** One entry of `record.errors`. */
  datatype Violation = Violation(attribute: string, message: string)

  // ---------------------------------------------------------------- registration

  /** The foreign keys of the polymorphic associations. */
  function PolymorphicForeignKeys(assocs: seq<Association>): (keys: seq<string>)
    ensures forall k :: k in keys <==> exists a :: a in assocs && a.polymorphic && a.foreignKey == k
  {
    if assocs == [] then []
    else (if assocs[0].polymorphic then [assocs[0].foreignKey] else []) + PolymorphicForeignKeys(assocs[1..])
  }

  /** `a` gets an integrity check: a `belongs_to` other than the tenant, on no polymorphic key. */
  predicate IsChecked(a: Association, tenant: string, polymorphicKeys: seq<string>) {
    a.name != tenant && a.macro == BelongsTo && a.foreignKey !in polymorphicKeys
  }

  /** The associations of `assocs` that get a check, in declaration order. */
  function SelectChecked(assocs: seq<Association>, tenant: string, polymorphicKeys: seq<string>): (checked: seq<Association>)
    ensures forall a :: a in checked <==> a in assocs && IsChecked(a, tenant, polymorphicKeys)
    ensures |checked| <= |assocs|
  {
    if assocs == [] then []
    else (if IsChecked(assocs[0], tenant, polymorphicKeys) then [assocs[0]] else [])
         + SelectChecked(assocs[1..], tenant, polymorphicKeys)
  }

  /**
   * The associations that receive an integrity check: exactly the
   * `belongs_to` associations other than the tenant one whose foreign key is
   * not the foreign key of any polymorphic association.
   */
  function CheckedAssociations(assocs: seq<Association>, tenant: string): (checked: seq<Association>)
    ensures forall a :: a in checked <==>
              a in assocs && a.name != tenant && a.macro == BelongsTo &&
              !(exists p :: p in assocs && p.polymorphic && p.foreignKey == a.foreignKey)
    ensures forall a :: a in checked ==> !a.polymorphic
  {
    SelectChecked(assocs, tenant, PolymorphicForeignKeys(assocs))
  }

  /**
   * `acts_as_tenant(tenant, options)` on the model `className`, whose
   * associations declared so far are `declared`: registers the tenant, fixes
   * the foreign key (the `:foreign_key` option, else the tenant name and
   * "_id"), declares the tenant `belongs_to` and selects the checked
   * associations among all of them.
   */
  method Register(ctx: Tenancy, className: string, tenant: string, options: Options, declared: seq<Association>)
    returns (reg: Registration)
    modifies ctx
    ensures ctx.tenantKlass == old(ctx.tenantKlass)[className := tenant]
    ensures ctx.currentTenant == old(ctx.currentTenant) && ctx.requireTenant == old(ctx.requireTenant)
    ensures reg.className == className && reg.tenant == tenant
    ensures reg.fkey == options.foreignKey.GetOr(tenant + "_id")
    ensures reg.checked ==
            CheckedAssociations(declared + [Association(tenant, BelongsTo, false, reg.fkey, options.className.GetOr(tenant))], tenant)
  {
    ctx.SetTenantKlass(className, tenant);
    var fkey := if options.foreignKey.Some? then options.foreignKey.value else ctx.Fkey(className);
    var all := declared + [Association(tenant, BelongsTo, false, fkey, options.className.GetOr(tenant))];
    reg := Registration(className, tenant, fkey, CheckedAssociations(all, tenant));
  }

  // ---------------------------------------------------------------- records

  /** The part of a model instance the core reads and writes; a missing attribute reads as nil. */
  datatype RecordState = RecordState(newRecord: bool, attrs: map<string, Option<int>>, tenant: Option<Tenant>)

  function Attr(attrs: map<string, Option<int>>, name: string): Option<int> {
    if name in attrs then attrs[name] else None
  }

  /** The id a tenant association setter stores: the model's id, nil for nil. */
  function IdOf(model: Option<Tenant>): Option<int> {
    if model.Some? then model.value.id else None
  }

  /** A call of the foreign-key setter or of the tenant-association setter. */
  datatype Write = WriteKey(value: Option<int>) | WriteTenant(model: Option<Tenant>)

  /** The value a write stores in the foreign key. */
  function Written(w: Write): Option<int> {
    match w
    case WriteKey(v) => v
    case WriteTenant(m) => IdOf(m)
  }

  datatype Step = Step(status: Status, state: RecordState)

  /** The guard of both setters: the record is new, or its tenant key is still nil. */
  predicate MayWrite(s: RecordState, fkey: string) {
    s.newRecord || Attr(s.attrs, fkey).None?
  }

  /**
   * One guarded write. It succeeds iff the guard holds and then changes the
   * foreign key (and, for the association setter, the association) only;
   * otherwise it raises TenantIsImmutable and changes nothing, even when the
   * new value is the old one.
   */
  function ApplyWrite(s: RecordState, fkey: string, w: Write): (r: Step)
    ensures r.status == Ok <==> MayWrite(s, fkey)
    ensures r.status != Ok ==> r == Step(Failed(TenantIsImmutable), s)
    ensures r.status == Ok ==>
              r.state.newRecord == s.newRecord && r.state.attrs == s.attrs[fkey := Written(w)] &&
              r.state.tenant == (if w.WriteTenant? then w.model else s.tenant)
  {
    if !MayWrite(s, fkey) then Step(Failed(TenantIsImmutable), s)
    else match w
      case WriteKey(v) => Step(Ok, s.(attrs := s.attrs[fkey := v]))
      case WriteTenant(m) => Step(Ok, s.(attrs := s.attrs[fkey := IdOf(m)], tenant := m))
  }

  /** The record after a series of writes, each one rescued if it raises. */
  function ApplyWrites(s: RecordState, fkey: string, ws: seq<Write>): RecordState
    decreases |ws|
  {
    if ws == [] then s else ApplyWrites(ApplyWrite(s, fkey, ws[0]).state, fkey, ws[1..])
  }

  /** Once a saved record has a tenant key, no series of writes changes the record. */
  lemma {:induction false} PersistedKeyIsFrozen(s: RecordState, fkey: string, ws: seq<Write>)
    requires !s.newRecord && Attr(s.attrs, fkey).Some?
    ensures ApplyWrites(s, fkey, ws) == s
    decreases |ws|
  {
    if ws != [] {
      PersistedKeyIsFrozen(s, fkey, ws[1..]);
    }
  }

  /** A saved record without tenant key takes one non-nil key, and it is frozen from then on. */
  lemma SetOnceThenFrozen(s: RecordState, fkey: string, w: Write, ws: seq<Write>)
    requires !s.newRecord && Attr(s.attrs, fkey).None? && Written(w).Some?
    ensures ApplyWrite(s, fkey, w).status == Ok
    ensures Attr(ApplyWrites(ApplyWrite(s, fkey, w).state, fkey, ws).attrs, fkey) == Written(w)
  {
    PersistedKeyIsFrozen(ApplyWrite(s, fkey, w).state, fkey, ws);
  }

  /** On a new record every write is accepted and the last one decides the key. */
  lemma {:induction false} NewRecordTakesLastWrite(s: RecordState, fkey: string, ws: seq<Write>)
    requires s.newRecord && ws != []
    ensures ApplyWrites(s, fkey, ws).newRecord
    ensures Attr(ApplyWrites(s, fkey, ws).attrs, fkey) == Written(ws[|ws| - 1])
    decreases |ws|
  {
    if |ws| > 1 {
      NewRecordTakesLastWrite(ApplyWrite(s, fkey, ws[0]).state, fkey, ws[1..]);
    }
  }

  // ---------------------------------------------------------------- scope and stamp

  /** There is a current tenant and its type tag is the tenant registered for the model. */
  predicate TenantMatches(current: Option<Tenant>, registered: Option<string>) {
    current.Some? && registered == Some(TypeTag(current))
  }

  /**
   * The `with_current_tenant` scope of a model whose registered tenant is
   * `registered` and whose foreign key is `fkey`: it raises NoTenantSet iff
   * a tenant is required and none is set, filters on the current tenant's id
   * iff the current tenant's tag is the registered tenant, and adds nothing
   * otherwise.
   */
  function ReadScope(requireTenant: bool, current: Option<Tenant>, registered: Option<string>, fkey: string): (f: Filter)
    ensures f == NoTenantSetError <==> requireTenant && current.None?
    ensures f.Eq? <==> TenantMatches(current, registered)
    ensures f.Eq? ==> f == Eq(fkey, current.value.id)
    ensures f == NoFilter <==> !(requireTenant && current.None?) && !TenantMatches(current, registered)
  {
    if requireTenant && current.None? then NoTenantSetError
    else if TenantMatches(current, registered) then Eq(fkey, current.value.id)
    else NoFilter
  }

  /** A row passes the filter (a query that raises shows nothing). */
  predicate Visible(f: Filter, s: RecordState) {
    match f
    case NoTenantSetError => false
    case NoFilter => true
    case Eq(column, value) => Attr(s.attrs, column) == value
  }

  /**
   * The `before_validation ... on: :create` hook: on a new record, when the
   * current tenant matches, the foreign key is set to the tenant's id through
   * the guarded setter; otherwise nothing changes.
   */
  function Stamp(s: RecordState, current: Option<Tenant>, registered: Option<string>, fkey: string): (r: RecordState)
    ensures s.newRecord && TenantMatches(current, registered) ==> r == s.(attrs := s.attrs[fkey := current.value.id])
    ensures !(s.newRecord && TenantMatches(current, registered)) ==> r == s
  {
    if s.newRecord && TenantMatches(current, registered) then ApplyWrite(s, fkey, WriteKey(current.value.id)).state
    else s
  }

  /**
   * Scope and stamp agree: a record created under a context is visible to
   * that context's scope unless the scope raises, and under a matching tenant
   * exactly the rows carrying the tenant's id are visible.
   */
  lemma ScopeAndStampAgree(requireTenant: bool, current: Option<Tenant>, registered: Option<string>, fkey: string, s: RecordState)
    requires s.newRecord
    ensures var f := ReadScope(requireTenant, current, registered, fkey);
            f != NoTenantSetError ==> Visible(f, Stamp(s, current, registered, fkey))
    ensures TenantMatches(current, registered) ==>
              (Visible(ReadScope(requireTenant, current, registered, fkey), s) <==> Attr(s.attrs, fkey) == current.value.id)
  {
  }

  /** A record stamped with a saved tenant's id and then saved can never change tenant. */
  lemma StampedThenSavedIsFrozen(current: Option<Tenant>, registered: Option<string>, fkey: string,
                                 s: RecordState, ws: seq<Write>)
    requires s.newRecord && TenantMatches(current, registered) && current.value.id.Some?
    ensures var saved := Stamp(s, current, registered, fkey).(newRecord := false);
            Attr(ApplyWrites(saved, fkey, ws).attrs, fkey) == current.value.id
  {
    var saved := Stamp(s, current, registered, fkey).(newRecord := false);
    PersistedKeyIsFrozen(saved, fkey, ws);
  }

  // ---------------------------------------------------------------- integrity check

  /** The ids of the `target` rows the existence query can find. */
  function Rows(existing: map<string, set<int>>, target: string): set<int> {
    if target in existing then existing[target] else {}
  }

  /** The foreign key of `a` is set but names no existing row. */
  predicate Dangling(a: Association, attrs: map<string, Option<int>>, existing: map<string, set<int>>) {
    Attr(attrs, a.foreignKey).Some? && Attr(attrs, a.foreignKey).value !in Rows(existing, a.target)
  }

  function ErrorsFor(a: Association, attrs: map<string, Option<int>>, existing: map<string, set<int>>): seq<Violation> {
    if Dangling(a, attrs, existing) then [Violation(a.foreignKey, InvalidAssociation)] else []
  }

  /**
   * The errors the checks of `checked` add: one per dangling foreign key, on
   * that key, none for a nil key or a key naming an existing row.
   */
  function AssociationErrors(checked: seq<Association>, attrs: map<string, Option<int>>, existing: map<string, set<int>>)
    : (errs: seq<Violation>)
    ensures forall v :: v in errs <==>
              exists a :: a in checked && Dangling(a, attrs, existing) && v == Violation(a.foreignKey, InvalidAssociation)
    ensures |errs| <= |checked|
  {
    if checked == [] then []
    else AssociationErrors(checked[..|checked| - 1], attrs, existing) + ErrorsFor(checked[|checked| - 1], attrs, existing)
  }

  lemma AssociationErrorsStep(checked: seq<Association>, i: nat, attrs: map<string, Option<int>>, existing: map<string, set<int>>)
    requires i < |checked|
    ensures AssociationErrors(checked[..i + 1], attrs, existing) ==
            AssociationErrors(checked[..i], attrs, existing) + ErrorsFor(checked[i], attrs, existing)
  {
    assert checked[..i + 1][..i] == checked[..i];
  }

  // ---------------------------------------------------------------- uniqueness

  /** The `:scope` option: nil (or false), one column, or an array of columns. */
  datatype ScopeArg = Absent | Single(column: string) | Many(columns: seq<string>)

  /** Kernel#Array on the option: nil gives [], a column gives [column]. */
  function AsArray(s: ScopeArg): seq<string> {
    match s
    case Absent => []
    case Single(c) => [c]
    case Many(cs) => cs
  }

  /**
   * The new `:scope`: the given columns with the tenant key appended, or the
   * tenant key alone when no scope was given.
   */
  function TenantScope(s: ScopeArg, fkey: string): (r: ScopeArg)
    ensures AsArray(r) == AsArray(s) + [fkey]
    ensures s.Absent? <==> r == Single(fkey)
  {
    if s.Absent? then Single(fkey) else Many(AsArray(s) + [fkey])
  }

  /** The options hash handed to `validates_uniqueness_to_tenant`, whose `:scope` it rewrites. */
  class UniquenessArgs {
    var scope: ScopeArg

    constructor (scope: ScopeArg)
      ensures this.scope == scope
    {
      this.scope := scope;
    }
  }

  /**
   * `validates_uniqueness_to_tenant`: raises ModelNotScopedByTenant on a
   * model without registration (leaving the options alone), and otherwise
   * rewrites `:scope` so that uniqueness is checked within the tenant.
   */
  method ValidatesUniquenessToTenant(reg: Option<Registration>, args: UniquenessArgs) returns (status: Status)
    modifies args
    ensures reg.None? ==> status == Failed(ModelNotScopedByTenant) && args.scope == old(args.scope)
    ensures reg.Some? ==> status == Ok && args.scope == TenantScope(old(args.scope), reg.value.fkey)
    ensures reg.Some? ==> reg.value.fkey in AsArray(args.scope)
  {
    if reg.None? {
      return Failed(ModelNotScopedByTenant);
    }
    args.scope := TenantScope(args.scope, reg.value.fkey);
    status := Ok;
  }

  // ---------------------------------------------------------------- model instances

  /** An instance of a tenant-scoped model. */
  class Record {
    var newRecord: bool
    var attrs: map<string, Option<int>>
    /** The loaded tenant association. */
    var tenant: Option<Tenant>
    var errors: seq<Violation>

    constructor (newRecord: bool, attrs: map<string, Option<int>>)
      ensures this.newRecord == newRecord && this.attrs == attrs && tenant == None && errors == []
    {
      this.newRecord := newRecord;
      this.attrs := attrs;
      tenant := None;
      errors := [];
    }

    function State(): RecordState
      reads this
    {
      RecordState(newRecord, attrs, tenant)
    }

    /** The generated foreign-key setter `<fkey>=`. */
    method WriteForeignKey(reg: Registration, value: Option<int>) returns (status: Status)
      modifies this
      ensures Step(status, State()) == ApplyWrite(old(State()), reg.fkey, WriteKey(value))
      ensures errors == old(errors)
    {
      if !(newRecord || Attr(attrs, reg.fkey).None?) {
        return Failed(TenantIsImmutable);
      }
      attrs := attrs[reg.fkey := value];
      status := Ok;
    }

    /** The generated tenant-association setter `<tenant>=`; past the guard, `belongs_to` stores the model and its id. */
    method AssignTenant(reg: Registration, model: Option<Tenant>) returns (status: Status)
      modifies this
      ensures Step(status, State()) == ApplyWrite(old(State()), reg.fkey, WriteTenant(model))
      ensures errors == old(errors)
    {
      if !(newRecord || Attr(attrs, reg.fkey).None?) {
        return Failed(TenantIsImmutable);
      }
      attrs := attrs[reg.fkey := IdOf(model)];
      tenant := model;
      status := Ok;
    }

    /** The create-time hook: stamps the current tenant's id through the foreign-key setter. */
    method StampOnCreate(ctx: Tenancy, reg: Registration)
      modifies this
      ensures State() == Stamp(old(State()), ctx.currentTenant, ctx.TenantKlass(reg.className), reg.fkey)
      ensures errors == old(errors)
    {
      if newRecord && ctx.currentTenant.Some? && ctx.TenantKlass(reg.className) == Some(ctx.CurrentTenantKlass()) {
        var status := WriteForeignKey(reg, ctx.currentTenant.value.id);
      }
    }

    /**
     * The generated tenant reader: the current tenant itself when one is set
     * and the record's key equals its id, else `fetched`, the association's
     * own load. Either way, when the key is set and the load is consistent
     * with it, the result carries the record's key.
     */
    method ReadTenant(ctx: Tenancy, reg: Registration, fetched: Option<Tenant>) returns (t: Option<Tenant>)
      ensures ctx.currentTenant.Some? && Attr(attrs, reg.fkey) == ctx.currentTenant.value.id ==> t == ctx.currentTenant
      ensures !(ctx.currentTenant.Some? && Attr(attrs, reg.fkey) == ctx.currentTenant.value.id) ==> t == fetched
      ensures Attr(attrs, reg.fkey).Some? && IdOf(fetched) == Attr(attrs, reg.fkey) ==> IdOf(t) == Attr(attrs, reg.fkey)
    {
      if ctx.currentTenant.Some? && Attr(attrs, reg.fkey) == ctx.currentTenant.value.id {
        t := ctx.currentTenant;
      } else {
        t := fetched;
      }
    }

    /** Runs the integrity checks of `reg` in order, appending an error for every dangling key. */
    method ValidateAssociations(reg: Registration, existing: map<string, set<int>>)
      modifies this`errors
      ensures errors == old(errors) + AssociationErrors(reg.checked, attrs, existing)
      ensures State() == old(State())
    {
      var checked := reg.checked;
      for i := 0 to |checked|
        invariant errors == old(errors) + AssociationErrors(checked[..i], attrs, existing)
      {
        var a := checked[i];
        var value := Attr(attrs, a.foreignKey);
        AssociationErrorsStep(checked, i, attrs, existing);
        if value.Some? && value.value !in Rows(existing, a.target) {
          errors := errors + [Violation(a.foreignKey, InvalidAssociation)];
        }
      }
      assert checked[..|checked|] == checked;
    }
  }
}
