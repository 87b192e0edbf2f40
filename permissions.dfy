/** Field permission predicates: stateless rules answering "may this request see
    the field?" and, per instance, "may this request see it for this object?". */
module Permissions {
  import opened Outcomes

  /** A user as the request carries it: a name and the host's authentication flag. */
  datatype User = User(username: string, isAuthenticated: bool)

  /** A request; `user` is `None` when `request.user` is None. A request
      without a `user` attribute is not modelled. */
  datatype Request = Request(user: Option<User>)

  /** The instance being serialised, reduced to its attribute values by name. */
  datatype Record = Record(attributes: map<string, string>)

  /** The host framework's anonymous user: an empty name, never authenticated. */
  const AnonymousUser := User("", false)

  /** The permission classes. `IsOwner(a)` is the custom object-level rule
      that grants an instance only to the user whose name is the instance's
      attribute `a` (the `IsArtist` rule of the tests is `IsOwner("artist")`). */
  datatype Permission =
    | BaseFieldPermission
    | AllowAny
    | AllowNone
    | IsAuthenticated
    | IsOwner(attribute: string)

  /** The request-level check `has_permission(request)`. */
  function HasPermission(p: Permission, request: Request): bool
  {
    match p
    case AllowNone => false
    case IsAuthenticated => request.user.Some? && request.user.value.isAuthenticated
    case _ => true
  }

  /** The object-level check `has_object_permission(request, obj)`; `obj` is
      `None` when no instance is at hand. Every class that does not override it
      grants. */
  function HasObjectPermission(p: Permission, request: Request, obj: Option<Record>): bool
  {
    match p
    case AllowNone => false
    case IsOwner(attribute) =>
      && request.user.Some?
      && obj.Some?
      && attribute in obj.value.attributes
      && request.user.value.username == obj.value.attributes[attribute]
    case _ => true
  }

  /** One permission grants a request and an object: both checks pass. */
  predicate Grants(p: Permission, request: Request, obj: Option<Record>)
  {
    HasPermission(p, request) && HasObjectPermission(p, request, obj)
  }

  /** The base class grants at request level and at object level. */
  lemma BaseGrants(request: Request, obj: Option<Record>)
    ensures HasPermission(BaseFieldPermission, request)
    ensures HasObjectPermission(BaseFieldPermission, request, obj)
  {
  }

  /** `AllowAny` grants both checks for every request and object. */
  lemma AllowAnyGrants(request: Request, obj: Option<Record>)
    ensures HasPermission(AllowAny, request)
    ensures HasObjectPermission(AllowAny, request, obj)
  {
  }

  /** `AllowNone` denies both checks for every request and object. */
  lemma AllowNoneDenies(request: Request, obj: Option<Record>)
    ensures !HasPermission(AllowNone, request)
    ensures !HasObjectPermission(AllowNone, request, obj)
  {
  }

  /** `IsAuthenticated` grants exactly when the request carries a user whose
      authentication flag is set; an absent user is denied. It does not
      override the object-level check. */
  lemma IsAuthenticatedGrantsIff(request: Request, obj: Option<Record>)
    ensures HasPermission(IsAuthenticated, request)
            <==> request.user.Some? && request.user.value.isAuthenticated
    ensures request.user.None? ==> !HasPermission(IsAuthenticated, request)
    ensures HasObjectPermission(IsAuthenticated, request, obj)
  {
  }

  /** The ownership rule grants at request level (inherited from the base) and,
      per instance, exactly when the requesting user's name equals the owner
      attribute of the instance. */
  lemma IsOwnerGrantsIff(attribute: string, request: Request, obj: Option<Record>)
    ensures HasPermission(IsOwner(attribute), request)
    ensures Grants(IsOwner(attribute), request, obj)
            <==> && request.user.Some? && obj.Some?
                 && attribute in obj.value.attributes
                 && obj.value.attributes[attribute] == request.user.value.username
  {
  }

  /** The object-level check defaults to a grant: only `AllowNone` and the
      ownership rule ever deny at object level. */
  lemma ObjectPermissionDefaultsToGrant(p: Permission, request: Request, obj: Option<Record>)
    requires !p.AllowNone? && !p.IsOwner?
    ensures HasObjectPermission(p, request, obj)
  {
  }

  // ---------------------------------------------------------------------------
  // The predicates as written: `has_object_permission` is not defined by any
  // class of this file, and `IsAuthenticated` calls the authentication flag.
  // ---------------------------------------------------------------------------

  /** `has_permission` as written: `IsAuthenticated` calls the user's
      authentication flag as a method, which raises when the flag is a boolean;
      a request without a user short-circuits to a denial first. */
  function HasPermissionAsWritten(p: Permission, request: Request): (r: Result<bool, PythonError>)
    ensures r.Err? <==> p.IsAuthenticated? && request.user.Some?
    ensures r.Err? ==> r.error == TypeError
    ensures r.Ok? ==> r.value == HasPermission(p, request)
  {
    match p
    case AllowNone => Ok(false)
    case IsAuthenticated =>
      if request.user.None? then Ok(false) else Err(TypeError)
    case _ => Ok(true)
  }

  /** `has_object_permission` as written: only a user-defined rule (the
      ownership rule) defines it; on every class of this file the lookup fails. */
  function HasObjectPermissionAsWritten(p: Permission, request: Request, obj: Option<Record>): (r: Result<bool, PythonError>)
    ensures r.Err? <==> !p.IsOwner?
    ensures r.Err? ==> r.error == AttributeError
    ensures r.Ok? ==> r.value == HasObjectPermission(p, request, obj)
  {
    match p
    case IsOwner(_) => Ok(HasObjectPermission(p, request, obj))
    case _ => Err(AttributeError)
  }

  /** The authenticated request of the permission tests raises as written,
      although the intended check grants it. */
  lemma AuthenticatedFlagCallRaises()
    ensures HasPermissionAsWritten(IsAuthenticated, Request(Some(User("", true)))) == Err(TypeError)
    ensures HasPermission(IsAuthenticated, Request(Some(User("", true))))
  {
  }

  /** The object-level check the permission tests call on `AllowAny` and
      `AllowNone` raises as written; the intended check grants and denies. */
  lemma MissingObjectCheckRaises(request: Request)
    ensures HasObjectPermissionAsWritten(AllowAny, request, None) == Err(AttributeError)
    ensures HasObjectPermissionAsWritten(AllowNone, request, None) == Err(AttributeError)
    ensures HasObjectPermission(AllowAny, request, None)
    ensures !HasObjectPermission(AllowNone, request, None)
  {
  }
}
