# acts_as_tenant: tenant isolation, modelled in Dafny

acts_as_tenant makes every ActiveRecord model that calls `acts_as_tenant`
belong to a tenant (by default an `Account`). Reads are filtered to the
current tenant, new records are stamped with it, the tenant foreign key
cannot be changed once it is set, other `belongs_to` keys are checked to
name existing rows, and uniqueness validations can be made tenant-wide.
This project models `lib/acts_as_tenant/model_extensions.rb` and proves its
rules.

Files:

- `wrappers.dfy`: `Option` (Ruby `nil` is `None`).
- `inflection.dfy`: `demodulize` and `downcase`, the two string helpers
  behind the tenant type tag.
- `acts_as_tenant.dfy`: the module-level state. The class `Tenancy` holds
  the `@@tenant_klass` registry, the current tenant and `require_tenant`.
  It provides `set_tenant_klass`, `tenant_klass`, `fkey`,
  `current_tenant=`, `current_tenant_klass` and `with_tenant`. The block
  given to `with_tenant` is a small step language: return a value, raise,
  read the current tenant, assign it directly, or run a nested
  `with_tenant`. This lets nesting and the direct-assignment escape hatch
  be stated. `RunBlock` and `RunWithTenant` are the functions that specify
  `Tenancy.CallBlock` and `Tenancy.WithTenant`. The reader
  `current_tenant` is the field `Tenancy.currentTenant`.
- `model_extensions.dfy`: what `acts_as_tenant` generates, written once and
  parameterised by a `Registration` (class name, tenant name, the captured
  foreign key, the checked associations). It covers the scope lambda, the
  create-time stamp, the association integrity check, the two guarded
  setters, the tenant reader short-cut and `validates_uniqueness_to_tenant`.
  The class `Record` is a model instance; `RecordState` is its abstract
  value. `UniquenessArgs` is the options hash whose `:scope` is rewritten.

Edge cases the model keeps exactly as the code has them:

- `current_tenant_klass` with no tenant does not fail. `nil.class.name` is
  `"NilClass"`, so the tag is `nilclass` (`TypeTag`).
- Writing the same tenant key again to a saved record that already has one
  raises `TenantIsImmutable`. It is not a no-op (`ApplyWrite`).
- `fkey` of a class that never registered is `"_id"`, since `nil.to_s` is
  `""` (`Tenancy.Fkey`).
- `with_tenant` without a block raises before the old tenant is saved. The
  `ensure` clause then restores `nil`, so the current tenant is cleared
  (`Tenancy.WithTenant`).
- The tenant reader compares the record's key with the current tenant's id.
  For an unsaved tenant both are nil, so a record without a tenant key
  reads back the current tenant (`Record.ReadTenant`).

## Model

| member | source | states |
|---|---|---|
| `Inflection.Demodulize` | lib/acts_as_tenant/model_extensions.rb:25 | the result has no "::"; it is the whole name when the name has no separator, else the part after the last "::" and nothing after it |
| `Inflection.Downcase` | lib/acts_as_tenant/model_extensions.rb:25 | same length; every ASCII capital becomes its lower-case letter, every other character is kept |
| `Inflection.DemodulizeDropsNamespace` | lib/acts_as_tenant/model_extensions.rb:25 | a namespace prefix "ns::" does not change the demodulized name of a constant |
| `ActsAsTenant.TypeTag` | lib/acts_as_tenant/model_extensions.rb:24-26 | the tag has no upper-case letter and no "::"; with no tenant it is "nilclass" |
| `ActsAsTenant.TypeTagIgnoresNamespace` | lib/acts_as_tenant/model_extensions.rb:24-26 | tenants of classes `ns::Name` and `Name` get the same tag, `Name` lower-cased, whatever their ids |
| `ActsAsTenant.FooAccountTag` | lib/acts_as_tenant/model_extensions.rb:24-26 | a tenant of class `Foo::Account` has the tag "account" |
| `ActsAsTenant.Tenancy.CurrentTenantKlass` | lib/acts_as_tenant/model_extensions.rb:24-26 | the tag of the current tenant; "nilclass" when none is set |
| `ActsAsTenant.Tenancy.constructor` | lib/acts_as_tenant/model_extensions.rb:2 | the registry starts empty and no tenant is current |
| `ActsAsTenant.Tenancy.TenantKlass` | lib/acts_as_tenant/model_extensions.rb:8-10 | the registered tenant of a class, nil iff the class never registered |
| `ActsAsTenant.Tenancy.Fkey` | lib/acts_as_tenant/model_extensions.rb:12-14 | the key ends in "_id" and removing that suffix gives back the registered tenant ("" when none) |
| `ActsAsTenant.Tenancy.SetTenantKlass` | lib/acts_as_tenant/model_extensions.rb:4-6 | afterwards `tenant_klass(c)` is the new tenant and `fkey(c)` is the tenant followed by "_id"; every other class keeps its entry; the current tenant is untouched |
| `ActsAsTenant.Tenancy.SetCurrentTenant` | lib/acts_as_tenant/model_extensions.rb:16-18 | the current tenant becomes the given one; the registry is untouched |
| `ActsAsTenant.RunWithTenant` | lib/acts_as_tenant/model_extensions.rb:28-40 | with a block the previous tenant is current again afterwards; without one the outcome is ArgumentError and nil is current |
| `ActsAsTenant.Tenancy.WithTenant` | lib/acts_as_tenant/model_extensions.rb:28-40 | returns what the block returns or raises when started under the given tenant, and restores the previous tenant whether the block returned or raised; without a block raises ArgumentError and leaves nil current; the registry is untouched |
| `ActsAsTenant.Tenancy.CallBlock` | lib/acts_as_tenant/model_extensions.rb:35 | the block's outcome and the tenant it leaves current are those of `RunBlock` |
| `ActsAsTenant.AssignsNothingKeepsTenant` | lib/acts_as_tenant/model_extensions.rb:28-40 | a block that never assigns the tenant directly leaves the tenant as it found it, unless a nested blockless `with_tenant` raised ArgumentError and left nil |
| `ActsAsTenant.NestedWithTenant` | lib/acts_as_tenant/model_extensions.rb:28-40 | inside `with_tenant(a)`, after a nested `with_tenant(b)` that returns, the block sees `a` again; if the nested block raises, the raise propagates; in both cases the outer tenant is restored |
| `ModelExtensions.PolymorphicForeignKeys` | lib/acts_as_tenant/model_extensions.rb:79-81 | a key is listed iff some polymorphic association uses it as foreign key |
| `ModelExtensions.SelectChecked` | lib/acts_as_tenant/model_extensions.rb:83-84 | keeps exactly the associations that are `belongs_to`, are not the tenant association and whose key is not polymorphic |
| `ModelExtensions.CheckedAssociations` | lib/acts_as_tenant/model_extensions.rb:79-84 | an association is checked iff it is `belongs_to`, not named as the tenant, and its foreign key is no polymorphic association's key; no polymorphic association is checked |
| `ModelExtensions.Register` | lib/acts_as_tenant/model_extensions.rb:48-56 | registers the tenant for the class; the foreign key is the `:foreign_key` option if given, else the tenant followed by "_id"; the checked associations are selected from the declared ones plus the tenant `belongs_to` |
| `ModelExtensions.ReadScope` | lib/acts_as_tenant/model_extensions.rb:58-65 | raises NoTenantSet iff a tenant is required and none is current; filters `fkey = current_tenant.id` iff the current tenant's tag is the registered tenant; no filter in every other case |
| `ModelExtensions.Stamp` | lib/acts_as_tenant/model_extensions.rb:73-77 | on a new record under a matching tenant, the key becomes the tenant's id and nothing else changes; otherwise the record is untouched |
| `ModelExtensions.Record.StampOnCreate` | lib/acts_as_tenant/model_extensions.rb:73-77 | the record's new state is `Stamp` of its old state under the current tenant and the registry entry; its errors are untouched |
| `ModelExtensions.ScopeAndStampAgree` | lib/acts_as_tenant/model_extensions.rb:58-77 | a record created under a context passes that context's scope unless the scope raises; under a matching tenant a row passes iff its key is the tenant's id |
| `ModelExtensions.ApplyWrite` | lib/acts_as_tenant/model_extensions.rb:97-105 | a write succeeds iff the record is new or its key is nil, and then changes only the key (and for the association setter the association); otherwise TenantIsImmutable and nothing changes, even for the same value |
| `ModelExtensions.Record.WriteForeignKey` | lib/acts_as_tenant/model_extensions.rb:97-100 | status and new record state are those of `ApplyWrite` for a key write; errors untouched |
| `ModelExtensions.Record.AssignTenant` | lib/acts_as_tenant/model_extensions.rb:102-105 | status and new record state are those of `ApplyWrite` for an association write; errors untouched |
| `ModelExtensions.PersistedKeyIsFrozen` | lib/acts_as_tenant/model_extensions.rb:97-105 | a saved record with a tenant key is unchanged by any series of writes |
| `ModelExtensions.SetOnceThenFrozen` | lib/acts_as_tenant/model_extensions.rb:97-105 | a saved record with a nil key accepts one non-nil key, which no later write changes |
| `ModelExtensions.NewRecordTakesLastWrite` | lib/acts_as_tenant/model_extensions.rb:97-105 | on a new record every write is accepted and the key ends as the last write set it |
| `ModelExtensions.StampedThenSavedIsFrozen` | lib/acts_as_tenant/model_extensions.rb:73-105 | a record stamped with a saved tenant's id and then saved keeps that id through any series of writes |
| `ModelExtensions.Record.ReadTenant` | lib/acts_as_tenant/model_extensions.rb:107-113 | returns the current tenant when one is set and the key equals its id, else the association's own load; when the key is set and the load matches it, the result carries the key |
| `ModelExtensions.AssociationErrors` | lib/acts_as_tenant/model_extensions.rb:86-88 | an error "association is invalid [ActsAsTenant]" on a checked key is produced iff the key is non-nil and names no existing row of its target; at most one per checked association |
| `ModelExtensions.Record.ValidateAssociations` | lib/acts_as_tenant/model_extensions.rb:83-88 | appends exactly `AssociationErrors` of the registration's checked associations to the record's errors, in order; the record is otherwise unchanged |
| `ModelExtensions.TenantScope` | lib/acts_as_tenant/model_extensions.rb:127-131 | the new scope, read as an array, is the old one with the tenant key appended; it is the key alone iff no scope was given |
| `ModelExtensions.ValidatesUniquenessToTenant` | lib/acts_as_tenant/model_extensions.rb:122-131 | on an unregistered model raises ModelNotScopedByTenant and leaves the options alone; otherwise rewrites `:scope` to `TenantScope`, which contains the tenant key |

## Left out

- The request store is a single field; its per-request, per-thread isolation is not modelled.
- `belongs_to`, `default_scope`, query execution, `write_attribute` and `validates_uniqueness_of` belong to ActiveRecord. The scope is modelled as the `Filter` it builds, and `Visible` says which rows pass it.
- The association's own load (`super()` in the tenant reader) is the parameter `fetched` of `Record.ReadTenant`.
- The existence query is membership in a given map from target class to visible ids. Which ids are visible depends on the target's own default scope, which is not modelled.
- Association reflection is an input list. `reflect_on_association(tenant)` is matched by name. `classify.constantize` is not modelled: each association carries its target class. For the tenant association the target is the `:class_name` option or the tenant name, and this association is never checked.
- `define_method` and the `scoped_by_tenant?` singleton are replaced by `Registration`. An unscoped model is `None` in `ValidatesUniquenessToTenant`.
- `Register` takes the tenant explicitly; the Ruby default `:account` is not modelled.
- Saving a record (a new record becoming persisted) is not modelled as an operation. The lemmas model it by setting `newRecord` to false.
- Record attributes missing from the attribute map read as nil; Ruby would raise on an unknown attribute.
- `Inflection.Downcase`: folds only ASCII letters; Ruby's `downcase` also folds other Unicode letters.
- Tenant names and type tags are symbols written as strings. Registering a tenant as a Ruby String, which never equals the Symbol tag, is not modelled.
- The block of `with_tenant` is reduced to the steps in `Block`; any other effect of Ruby code in it is not modelled.
- `ModelExtensions.ValidatesUniquenessToTenant`: takes the tenant key from the registration. Ruby reads it from the reflection of the tenant association, which was declared with the same options and so has the same key. A later re-registration of the same class name is not followed.
- `ModelExtensions.TenantScope`: builds a new sequence. When `:scope` is already an array, Ruby's `Array(...) << fkey` appends to the caller's own array object; that aliasing is not modelled.
- The validation context `:on => :create` is taken to mean a new record.
