/** Permission-capable fields: a field holding an ordered sequence of
    permissions and the aggregate check over them, and the list wrapper that a
    collection ("many") field is built as, gated exactly like one element. */
module Fields {
  import opened Outcomes
  import opened Permissions

  /** The keyword arguments this layer reads. */
  const PermissionClassesKey := "permission_classes"
  const ChildKey := "child"
  const AllowEmptyKey := "allow_empty"

  /** A keyword-argument value as a field constructor receives it. */
  datatype Kwarg =
    | PermissionList(permissions: seq<Permission>)
    | Flag(flag: bool)
    | Text(text: string)
    | NoneValue
    | FieldClass(className: string)          // a field type, not yet instantiated
    | FieldInstance(field: PermissionField)  // an already-built permission-capable field

  /** Why building the list wrapper is refused. */
  datatype ConstructionError =
    | MissingChild               // no `child`, or `child` is None
    | ChildNotInstantiated       // `child` is a field type rather than an instance
    | ChildNotPermissionCapable  // `child` is some other value, without permissions

  /** The aggregate check: every permission grants the request at request
      level and at object level; evaluation stops at the first denial. */
  function AllGrant(permissions: seq<Permission>, request: Request, obj: Option<Record>): (r: bool)
    ensures permissions == [] ==> r
    ensures r <==> forall i :: 0 <= i < |permissions| ==> Grants(permissions[i], request, obj)
  {
    if permissions == [] then true
    else Grants(permissions[0], request, obj) && AllGrant(permissions[1..], request, obj)
  }

  /** A single denying permission denies the field, wherever it stands. */
  lemma DenyAnywhereDenies(permissions: seq<Permission>, i: nat, request: Request, obj: Option<Record>)
    requires i < |permissions| && !Grants(permissions[i], request, obj)
    ensures !AllGrant(permissions, request, obj)
  {
  }

  /** The aggregate check does not depend on the order of the permissions,
      nor on how often each occurs. */
  lemma AllGrantOrderIndependent(p: seq<Permission>, q: seq<Permission>, request: Request, obj: Option<Record>)
    requires multiset(p) == multiset(q)
    ensures AllGrant(p, request, obj) == AllGrant(q, request, obj)
  {
    forall x ensures x in p <==> x in q {
      assert x in p <==> x in multiset(p);
      assert x in q <==> x in multiset(q);
    }
    AllGrantByMembership(p, request, obj);
    AllGrantByMembership(q, request, obj);
  }

  /** The aggregate check depends only on which permissions occur. */
  lemma AllGrantByMembership(p: seq<Permission>, request: Request, obj: Option<Record>)
    ensures AllGrant(p, request, obj) <==> forall x :: x in p ==> Grants(x, request, obj)
  {
    if !AllGrant(p, request, obj) {
      var i :| 0 <= i < |p| && !Grants(p[i], request, obj);
      assert p[i] in p;
    }
  }

  /** The keyword `permission_classes`, when given, is a sequence of permissions. */
  predicate PermissionKwargWellTyped(kwargs: map<string, Kwarg>)
  {
    PermissionClassesKey in kwargs ==> kwargs[PermissionClassesKey].PermissionList?
  }

  /** The permissions a field built from `kwargs` stores: the given sequence,
      or none. */
  function PermissionClassesOf(kwargs: map<string, Kwarg>): seq<Permission>
    requires PermissionKwargWellTyped(kwargs)
  {
    if PermissionClassesKey in kwargs then kwargs[PermissionClassesKey].permissions else []
  }

  /** Which object the list wrapper built from `kwargs` binds (and so modifies). */
  function ChildObjects(kwargs: map<string, Kwarg>): set<object>
  {
    if ChildKey in kwargs && kwargs[ChildKey].FieldInstance? then {kwargs[ChildKey].field} else {}
  }

  /** A permission-capable field (the permission mixin composed onto a host
      field or nested serializer). */
  class PermissionField {
    /** The ordered permissions, fixed at construction. */
    const permissionClasses: seq<Permission>
    /** The keyword arguments handed on to the host field's initialiser. */
    const hostKwargs: map<string, Kwarg>
    /** Set when a parent binds the field. */
    var fieldName: Option<string>
    var parent: Option<PermissionListSerializer>

    /** Takes `permission_classes` out of the keyword arguments (default: no
        permissions) and hands the rest to the host field. */
    constructor (kwargs: map<string, Kwarg>)
      requires PermissionKwargWellTyped(kwargs)
      ensures PermissionClassesKey !in kwargs ==> permissionClasses == []
      ensures PermissionClassesKey in kwargs ==> permissionClasses == kwargs[PermissionClassesKey].permissions
      ensures PermissionClassesKey !in hostKwargs
      ensures hostKwargs == kwargs - {PermissionClassesKey}
      ensures fieldName == None && parent == None
    {
      var remaining := kwargs - {PermissionClassesKey};
      permissionClasses := PermissionClassesOf(kwargs);
      hostKwargs := remaining;
      fieldName := None;
      parent := None;
    }

    /** `check_permission(request, obj)`: may this field be shown? */
    function CheckPermission(request: Request, obj: Option<Record>): (r: bool)
      ensures permissionClasses == [] ==> r
      ensures r <==> forall i :: 0 <= i < |permissionClasses| ==> Grants(permissionClasses[i], request, obj)
    {
      AllGrant(permissionClasses, request, obj)
    }

    /** Records the field's name and parent. */
    method Bind(name: string, newParent: PermissionListSerializer)
      modifies this
      ensures fieldName == Some(name) && parent == Some(newParent)
    {
      fieldName := Some(name);
      parent := Some(newParent);
    }
  }

  /** The collection wrapper: one built child whose permissions and check it
      shares. */
  class PermissionListSerializer {
    const child: PermissionField
    const permissionClasses: seq<Permission>
    const allowEmpty: Kwarg
    /** The keyword arguments handed on to the host's initialiser. */
    const hostKwargs: map<string, Kwarg>

    /** The wrapper's permissions are its child's. */
    ghost predicate Valid()
    {
      permissionClasses == child.permissionClasses
    }

    constructor (child: PermissionField, allowEmpty: Kwarg, hostKwargs: map<string, Kwarg>)
      ensures Valid()
      ensures this.child == child && this.allowEmpty == allowEmpty && this.hostKwargs == hostKwargs
    {
      this.child := child;
      this.permissionClasses := child.permissionClasses;
      this.allowEmpty := allowEmpty;
      this.hostKwargs := hostKwargs;
    }

    /** The check is the child's own: the collection is shown exactly when one
        element would be. */
    function CheckPermission(request: Request, obj: Option<Record>): (r: bool)
      ensures r == child.CheckPermission(request, obj)
      ensures r <==> forall i :: 0 <= i < |child.permissionClasses| ==> Grants(child.permissionClasses[i], request, obj)
    {
      child.CheckPermission(request, obj)
    }

    /** Builds the wrapper from keyword arguments: takes `child` and
        `allow_empty` (default: allowed) out of them, refuses a missing, null,
        uninstantiated or permission-less child, hands the rest to the host and
        binds the child to the wrapper under the empty name. */
    static method Create(kwargs: map<string, Kwarg>) returns (r: Result<PermissionListSerializer, ConstructionError>)
      modifies ChildObjects(kwargs)
      ensures ChildKey !in kwargs || kwargs[ChildKey].NoneValue? ==> r == Err(MissingChild)
      ensures ChildKey in kwargs && kwargs[ChildKey].FieldClass? ==> r == Err(ChildNotInstantiated)
      ensures ChildKey in kwargs && (kwargs[ChildKey].PermissionList? || kwargs[ChildKey].Flag? || kwargs[ChildKey].Text?)
              ==> r == Err(ChildNotPermissionCapable)
      ensures r.Ok? <==> ChildKey in kwargs && kwargs[ChildKey].FieldInstance?
      ensures r.Ok? ==>
                && fresh(r.value)
                && r.value.Valid()
                && r.value.child == kwargs[ChildKey].field
                && r.value.allowEmpty == (if AllowEmptyKey in kwargs then kwargs[AllowEmptyKey] else Flag(true))
                && r.value.hostKwargs == kwargs - {ChildKey, AllowEmptyKey}
                && r.value.child.fieldName == Some("")
                && r.value.child.parent == Some(r.value)
    {
      if ChildKey !in kwargs {
        return Err(MissingChild);
      }
      match kwargs[ChildKey]
      case NoneValue =>
        r := Err(MissingChild);
      case FieldClass(_) =>
        r := Err(ChildNotInstantiated);
      case FieldInstance(child) =>
        var allowEmpty := if AllowEmptyKey in kwargs then kwargs[AllowEmptyKey] else Flag(true);
        var remaining := kwargs - {ChildKey, AllowEmptyKey};
        var wrapper := new PermissionListSerializer(child, allowEmpty, remaining);
        child.Bind("", wrapper);
        r := Ok(wrapper);
      case _ =>
        r := Err(ChildNotPermissionCapable);
    }
  }

  /** The keyword arguments `many_init` passes to the wrapper: the child, then
      every original argument whose key is a list-serializer key. */
  function ListKwargs(child: PermissionField, kwargs: map<string, Kwarg>, listKeys: set<string>): (r: map<string, Kwarg>)
    ensures r.Keys == {ChildKey} + (kwargs.Keys * listKeys)
    ensures forall k :: k in kwargs && k in listKeys ==> r[k] == kwargs[k]
    ensures ChildKey !in listKeys ==> r[ChildKey] == FieldInstance(child)
  {
    map[ChildKey := FieldInstance(child)] + (map k | k in kwargs && k in listKeys :: kwargs[k])
  }

  /** `many_init`: builds one child from all the keyword arguments and wraps
      it, so the collection carries exactly the child's permissions. The child
      is always an instance, so the wrapper's construction cannot fail here. `listKeys`
      is the host's set of list-serializer keywords, which has no `child`. */
  method ManyInit(kwargs: map<string, Kwarg>, listKeys: set<string>) returns (l: PermissionListSerializer)
    requires PermissionKwargWellTyped(kwargs)
    requires ChildKey !in listKeys
    ensures fresh(l) && fresh(l.child) && l.Valid()
    ensures l.permissionClasses == PermissionClassesOf(kwargs)
    ensures l.child.hostKwargs == kwargs - {PermissionClassesKey}
    ensures l.allowEmpty
            == (if AllowEmptyKey in kwargs && AllowEmptyKey in listKeys then kwargs[AllowEmptyKey] else Flag(true))
    ensures l.hostKwargs == (map k | k in kwargs && k in listKeys :: kwargs[k]) - {AllowEmptyKey}
    ensures l.child.fieldName == Some("") && l.child.parent == Some(l)
  {
    var child := new PermissionField(kwargs);
    var listKwargs := ListKwargs(child, kwargs, listKeys);
    var built := PermissionListSerializer.Create(listKwargs);
    assert built.Ok?;
    l := built.value;
    assert listKwargs - {ChildKey, AllowEmptyKey}
        == (map k | k in kwargs && k in listKeys :: kwargs[k]) - {AllowEmptyKey};
  }

  /** A collection built by `many_init` is shown exactly when a field built
      from the same arguments would be. */
  lemma ManyGatedLikeOne(l: PermissionListSerializer, kwargs: map<string, Kwarg>, request: Request, obj: Option<Record>)
    requires PermissionKwargWellTyped(kwargs)
    requires l.Valid() && l.permissionClasses == PermissionClassesOf(kwargs)
    ensures l.CheckPermission(request, obj) == AllGrant(PermissionClassesOf(kwargs), request, obj)
  {
  }

  // ---------------------------------------------------------------------------
  // The aggregate check as written, over the predicates as written.
  // ---------------------------------------------------------------------------

  /** Evaluating one permission as written raises: at request level, or at
      object level after a request-level grant. */
  predicate RaisesAt(p: Permission, request: Request, obj: Option<Record>)
  {
    || HasPermissionAsWritten(p, request).Err?
    || (HasPermissionAsWritten(p, request) == Ok(true) && HasObjectPermissionAsWritten(p, request, obj).Err?)
  }

  /** `check_permission` as written: the first exception raised by a
      predicate ends the check; where the check returns, it returns what the
      intended check returns. */
  function CheckPermissionAsWritten(permissions: seq<Permission>, request: Request, obj: Option<Record>): (r: Result<bool, PythonError>)
    ensures r.Ok? ==> r.value == AllGrant(permissions, request, obj)
    ensures r.Err? <==> exists i :: 0 <= i < |permissions|
                                    && (forall j :: 0 <= j < i ==> Grants(permissions[j], request, obj))
                                    && RaisesAt(permissions[i], request, obj)
  {
    if permissions == [] then Ok(true)
    else
      match HasPermissionAsWritten(permissions[0], request)
      case Err(e) => Err(e)
      case Ok(granted) =>
        if !granted then Ok(false)
        else
          match HasObjectPermissionAsWritten(permissions[0], request, obj)
          case Err(e) => Err(e)
          case Ok(objectGranted) =>
            if !objectGranted then Ok(false)
            else CheckPermissionAsWritten(permissions[1..], request, obj)
  }

  /** A field guarded by `AllowAny` raises as written, although it is meant to
      be shown; `AllowNone` still denies, by short-circuit. */
  lemma MissingObjectCheckRaisesInField(request: Request, obj: Option<Record>)
    ensures CheckPermissionAsWritten([AllowAny], request, obj) == Err(AttributeError)
    ensures AllGrant([AllowAny], request, obj)
    ensures CheckPermissionAsWritten([AllowNone], request, obj) == Ok(false)
  {
  }
}
