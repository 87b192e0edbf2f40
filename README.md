# Field-level permissions for a serialization layer, modelled in Dafny

This project models the access-control layer of `rest_framework_serializer_field_permissions`, which sits on top of a host serialization framework. Output fields of a serializer carry an ordered sequence of permissions. When the serializer renders, every field whose permissions do not grant the request is removed from the field mapping.

The model has three modules, one per core file. A fourth module, `Outcomes`, holds `Option`, `Result` and the Python exceptions that the as-written members end in.

- `Permissions` (`permissions.py`): a request is a datatype with an optional user, and the user has a name and an authentication flag. The instance being serialised is a record of attribute values. A permission is a variant of `BaseFieldPermission`, `AllowAny`, `AllowNone`, `IsAuthenticated`, or `IsOwner(attribute)`. `IsOwner(attribute)` is the custom object-level rule the tests define as `IsArtist`. `HasPermission` and `HasObjectPermission` are the two checks. The object-level check grants by default and is denied by `AllowNone`.
- `Fields` (`fields.py`): `PermissionField` is the permission mixin. Its constructor takes `permission_classes` out of the keyword arguments (default: none) and hands the rest to the host. `CheckPermission` is the AND, over every permission, of the request-level and object-level checks (`AllGrant`). `PermissionListSerializer` is the collection wrapper. It shares its child's permissions and check. `Create` models its initialiser: it refuses a missing, null, uninstantiated or permission-less child and binds the child to the wrapper. `ManyInit` builds one child and a wrapper around it. The wrapper receives `child` plus the original keyword arguments whose key is a list-serializer key.
- `Serializers` (`serializers.py`): the field mapping is a `map<string, Field>`. A `Field` is a plain host field, a permission-capable field, or a collection wrapper. `ScrubFields` is the `fields` property. It fails when the serializer context has no request. Otherwise it makes two passes. The first collects the names of the permission-capable fields whose check fails for the request and the instance. The second removes those names. Names are visited in an arbitrary order, so its contract holds for every iteration order.

Where the code and its own tests disagree, the model follows the behaviour the tests assert. It also models the code as written, in separate members, and records the discrepancy under "Findings":

- `fields.py:34` calls `has_object_permission`, but no class in `permissions.py` defines it.
- `serializers.py:26` calls `check_permission` with the request alone, but `fields.py:29` takes the request and the object.
- `permissions.py:24` calls the authentication flag as a method, but the tests supply a boolean.

One more difference is not recorded as a finding. The scrub at `serializers.py:25-27` removes entries from the mapping while iterating over it. The model collects the names first and then removes them. Whether the iteration tolerates the removal depends on the host's mapping type, and that type is not part of this model.

## Model

| member | source | states |
|---|---|---|
| `Permissions.BaseGrants` | rest_framework_serializer_field_permissions/permissions.py:3-6 | the base permission grants every request at request level, and at object level by default |
| `Permissions.AllowAnyGrants` | rest_framework_serializer_field_permissions/permissions.py:9-12 | `AllowAny` grants both checks for every request and object |
| `Permissions.AllowNoneDenies` | rest_framework_serializer_field_permissions/permissions.py:15-18 | `AllowNone` denies both checks for every request and object |
| `Permissions.IsAuthenticatedGrantsIff` | rest_framework_serializer_field_permissions/permissions.py:21-24 | `IsAuthenticated` grants iff the request has a user whose authentication flag is set; an absent user is denied; the object-level check is not overridden |
| `Permissions.IsOwnerGrantsIff` | rest_framework_serializer_field_permissions/tests/tests.py:136-139 | the ownership rule grants at request level, and grants an instance iff the requesting user's name equals the instance's owner attribute |
| `Permissions.ObjectPermissionDefaultsToGrant` | rest_framework_serializer_field_permissions/tests/tests.py:16-26 | every permission other than `AllowNone` and the ownership rule grants at object level |
| `Permissions.HasPermissionAsWritten` | rest_framework_serializer_field_permissions/permissions.py:21-24 | as written, `IsAuthenticated` raises a type error exactly when a user is present; wherever a result is returned, it equals the intended check |
| `Permissions.HasObjectPermissionAsWritten` | rest_framework_serializer_field_permissions/fields.py:34 | as written, the object-level lookup fails on every permission class except a user-defined one; a returned result equals the intended check |
| `Permissions.AuthenticatedFlagCallRaises` | rest_framework_serializer_field_permissions/tests/tests.py:28-33 | the authenticated request of the tests raises as written, while the intended check grants it |
| `Permissions.MissingObjectCheckRaises` | rest_framework_serializer_field_permissions/tests/tests.py:16-26 | the object-level calls the tests make on `AllowAny` and `AllowNone` raise as written; the intended check grants and denies them |
| `Fields.AllGrant` | rest_framework_serializer_field_permissions/fields.py:34-35 | the aggregate check is true iff every permission grants the request at both levels; with no permissions it is true |
| `Fields.DenyAnywhereDenies` | rest_framework_serializer_field_permissions/fields.py:34-35 | one denying permission at any position denies the field |
| `Fields.AllGrantOrderIndependent` | rest_framework_serializer_field_permissions/fields.py:34-35 | two permission sequences that are permutations of each other give the same aggregate result |
| `Fields.PermissionField.constructor` | rest_framework_serializer_field_permissions/fields.py:23-27 | without `permission_classes` the field has no permissions; with them it stores exactly the given sequence; the host receives the other keyword arguments, without `permission_classes` |
| `Fields.PermissionField.CheckPermission` | rest_framework_serializer_field_permissions/fields.py:29-35 | the field may be shown iff every one of its permissions grants both checks; a field with no permissions is always shown |
| `Fields.PermissionField.Bind` | rest_framework_serializer_field_permissions/fields.py:61 | binding records the field's name and its parent wrapper |
| `Fields.PermissionListSerializer.constructor` | rest_framework_serializer_field_permissions/fields.py:47-52 | the wrapper holds the given child, allow-empty value and host arguments, and its permissions are the child's |
| `Fields.PermissionListSerializer.CheckPermission` | rest_framework_serializer_field_permissions/fields.py:49-50 | the collection's check is the child's check, so the collection is shown iff one element would be |
| `Fields.PermissionListSerializer.Create` | rest_framework_serializer_field_permissions/fields.py:46-61 | construction fails for a missing or null child, for a field type, and for a value that is not a permission-capable field. Otherwise the wrapper shares the child's permissions, `allow_empty` defaults to true, the host receives the rest of the arguments, and the child is bound to the wrapper |
| `Fields.ListKwargs` | rest_framework_serializer_field_permissions/fields.py:67-71 | the wrapper's keyword arguments are exactly `child` plus the original arguments whose key is a list-serializer key, with their values |
| `Fields.ManyInit` | rest_framework_serializer_field_permissions/fields.py:63-72 | `many_init` always builds a wrapper. The wrapper's permissions are exactly the permissions given for the child. The child's host arguments lack `permission_classes`. The wrapper receives only list-serializer arguments, and the child is bound to it under the empty name |
| `Fields.ManyGatedLikeOne` | rest_framework_serializer_field_permissions/tests/tests.py:116-119 | a collection built from given arguments is allowed iff a single field with those permissions is allowed |
| `Fields.CheckPermissionAsWritten` | rest_framework_serializer_field_permissions/fields.py:34-35 | as written, the check raises iff some permission raises while every permission before it grants. Whenever it returns a value, that value is the intended aggregate result |
| `Fields.MissingObjectCheckRaisesInField` | rest_framework_serializer_field_permissions/tests/tests.py:50-52 | a field guarded by `AllowAny` raises as written, although it is meant to be shown; `AllowNone` still denies by short-circuit |
| `Serializers.ScrubFields` | rest_framework_serializer_field_permissions/serializers.py:16-29 | without a request in the context the scrub fails. Otherwise it returns the input mapping minus exactly the permission-capable fields whose check fails for the request and instance. Kept names keep their fields, and no name is added |
| `Serializers.ScrubKeepsPlainFields` | rest_framework_serializer_field_permissions/serializers.py:25-26 | every field without a check is kept, bound to the same field |
| `Serializers.ScrubRemovesExactlyDenied` | rest_framework_serializer_field_permissions/serializers.py:25-27 | a name is removed iff its field has a check that fails; the output's names are a subset of the input's, with the same bindings |
| `Serializers.ScrubIdempotent` | rest_framework_serializer_field_permissions/serializers.py:25-27 | scrubbing an already scrubbed mapping changes nothing |
| `Serializers.RemovalsInCollects` | rest_framework_serializer_field_permissions/serializers.py:25-27 | collecting along an iteration order gathers exactly the visited names whose field is denied |
| `Serializers.RemovalOrderIndependent` | rest_framework_serializer_field_permissions/serializers.py:25-27 | every iteration order over the mapping's names collects the same set of names, the denied ones |
| `Serializers.DeniedTracksRemoved` | rest_framework_serializer_field_permissions/tests/tests.py:121-133 | a nested field guarded by `AllowNone` is absent from the output, single or as a collection, while plain fields stay |
| `Serializers.OwnerSeesOwnRecordOnly` | rest_framework_serializer_field_permissions/tests/tests.py:161-178 | an ownership-guarded field is kept for the owner's record. It is dropped for the anonymous user and for another artist's record when scrubbing per instance |
| `Serializers.ScrubAsWritten` | rest_framework_serializer_field_permissions/serializers.py:22-27 | as written, a missing request raises a key error. Any permission-capable field raises a type error. When the scrub does return, it returns the mapping unchanged |
| `Serializers.ScrubAsWrittenAgreesWhenReturning` | rest_framework_serializer_field_permissions/serializers.py:22-27 | whenever the scrub as written returns a mapping, that mapping equals the intended scrub's result for every instance |
| `Serializers.OneArgumentCheckRaises` | rest_framework_serializer_field_permissions/serializers.py:26 | the album whose tracks are guarded by `AllowNone` raises as written, where the intended scrub removes the tracks |

## Left out

- The one-line field subclasses (`fields.py:76-185`) only compose the permission mixin onto host field types. One `PermissionField` class stands for all of them and for nested serializers. Value encoding, validation and file handling belong to the host.
- Positional arguments and the host initialisers (`fields.py:26`, `fields.py:59`) are not modelled. The model records only which keyword arguments the host receives (`hostKwargs`).
- `Fields.PermissionListSerializer.Create`: the model takes the child only from the keyword arguments. The source's default is a deep copy of the host's class-level child, which is null here, so the model treats a missing child like a null one. In the source, the attribute reads at `fields.py:49-50` run before the assertions at `fields.py:54-55`. A null child or a field type therefore fails with an attribute error rather than with the assertion's message. The model keeps only the reason for the refusal.
- `Fields.PermissionListSerializer.Create`: a host field without permissions cannot be passed as a child value. In the source such a child fails at the same attribute read.
- `Fields.PermissionField.Bind`: binding records only the field name and the parent. The host's other effects of binding are not modelled.
- `Fields.ManyInit`: the host's list-serializer key set is a parameter that is assumed not to contain `child`. The host's dispatch from `many=True` to `many_init` is not modelled.
- The serializer context is a map from keys to requests. Other context entries are never read by the scrub and are not modelled.
- The request middleware, a process-wide mutable request slot, is not part of this model. The request and the instance are passed explicitly.
- A request without a `user` attribute (the tests pass `{}`) is not modelled. `Request(None)` stands for `request.user` being None. For such a request `IsAuthenticated` raises an attribute error in the source.
- Exceptions raised inside permissions are not modelled; permissions are total. The ownership rule denies when the request has no user, when there is no instance, or when the instance lacks the attribute. In the source these cases raise an attribute error.
- Django models, database fixtures, the test harness and packaging (`setup.py`) are not part of this model.

## Findings

| source | as written | input that shows it | evidently intended | confidence | as-written member | corrected member |
|---|---|---|---|---|---|---|
| rest_framework_serializer_field_permissions/fields.py:34 | calls `has_object_permission`, which no class in `permissions.py` defines, so the check raises an attribute error as soon as a library permission grants at request level | a field guarded by `AllowAny`, with any request and object | the object-level check grants by default and `AllowNone` denies it, as the tests assert | not executed; high | `Fields.CheckPermissionAsWritten`, `Fields.MissingObjectCheckRaisesInField` | `Fields.AllGrant` |
| rest_framework_serializer_field_permissions/permissions.py:24 | calls the user's authentication flag as a method, which raises a type error when the flag is a boolean | a request whose user has the flag set to true | grant iff a user is present and the flag is true | not executed; high | `Permissions.HasPermissionAsWritten`, `Permissions.AuthenticatedFlagCallRaises` | `Permissions.IsAuthenticatedGrantsIff` |
| rest_framework_serializer_field_permissions/serializers.py:26 | calls the two-argument `check_permission` with the request alone, so any permission-capable field raises a type error | a mapping with a `tracks` field guarded by `AllowNone`, and a context that holds a request | remove every field whose check fails for the request and the instance being serialised | not executed; high | `Serializers.ScrubAsWritten`, `Serializers.OneArgumentCheckRaises` | `Serializers.ScrubFields` |
