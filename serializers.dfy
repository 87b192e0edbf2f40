/** The serializer mixin's field-mapping scrub: every permission-capable field
    whose check fails for the request (and the instance being serialised) is
    removed from the name-to-field mapping; plain fields are never inspected. */
module Serializers {
  import opened Outcomes
  import opened Permissions
  import opened Fields

  /** The serializer-context key that holds the request. */
  const RequestKey := "request"

  /** A field of the mapping: a plain host field, a permission-capable field,
      or a permission-capable collection wrapper. */
  datatype Field =
    | Plain(kind: string)
    | Single(field: PermissionField)
    | Many(list: PermissionListSerializer)

  /** Why the scrub produces no mapping. */
  datatype ScrubError = MissingRequest

  /** The field has a `check_permission`. */
  predicate HasCheck(f: Field)
  {
    !f.Plain?
  }

  /** The field's own `check_permission(request, obj)`. */
  function CheckOf(f: Field, request: Request, obj: Option<Record>): bool
    requires HasCheck(f)
  {
    match f
    case Single(field) => field.CheckPermission(request, obj)
    case Many(list) => list.CheckPermission(request, obj)
  }

  /** The field has a check and the check fails. */
  predicate Denied(f: Field, request: Request, obj: Option<Record>)
  {
    HasCheck(f) && !CheckOf(f, request, obj)
  }

  /** The names the scrub removes. */
  function DeniedNames(fields: map<string, Field>, request: Request, obj: Option<Record>): set<string>
  {
    set n | n in fields && Denied(fields[n], request, obj)
  }

  /** The scrubbed mapping. */
  function Scrubbed(fields: map<string, Field>, request: Request, obj: Option<Record>): map<string, Field>
  {
    fields - DeniedNames(fields, request, obj)
  }

  /** The `fields` property: reads the request from the serializer context
      (failing when there is none), collects the names of the fields whose
      check fails for the request and `instance`, then removes them. The
      names are visited in an arbitrary order. */
  method ScrubFields(fields: map<string, Field>, context: map<string, Request>, instance: Option<Record>)
    returns (r: Result<map<string, Field>, ScrubError>)
    ensures RequestKey !in context <==> r == Err(MissingRequest)
    ensures RequestKey in context ==> r == Ok(Scrubbed(fields, context[RequestKey], instance))
    ensures r.Ok? ==> r.value.Keys <= fields.Keys
    ensures r.Ok? ==> forall n :: n in r.value ==> r.value[n] == fields[n]
    ensures r.Ok? ==> forall n :: n in fields ==>
              (n !in r.value <==> HasCheck(fields[n]) && !CheckOf(fields[n], context[RequestKey], instance))
  {
    if RequestKey !in context {
      return Err(MissingRequest);
    }
    var request := context[RequestKey];

    var doomed: set<string> := {};
    var unvisited := fields.Keys;
    while unvisited != {}
      invariant unvisited <= fields.Keys
      invariant doomed == set n | n in fields && n !in unvisited && Denied(fields[n], request, instance)
      decreases unvisited
    {
      var name :| name in unvisited;
      var field := fields[name];
      if HasCheck(field) && !CheckOf(field, request, instance) {
        doomed := doomed + {name};
      }
      unvisited := unvisited - {name};
    }
    assert doomed == DeniedNames(fields, request, instance);

    var kept := fields;
    var pending := doomed;
    while pending != {}
      invariant pending <= doomed
      invariant kept == fields - (doomed - pending)
      decreases pending
    {
      var name :| name in pending;
      kept := kept - {name};
      pending := pending - {name};
    }
    assert doomed - pending == doomed;
    r := Ok(kept);
  }

  /** Fields without a check are always kept, bound to the same field. */
  lemma ScrubKeepsPlainFields(fields: map<string, Field>, request: Request, obj: Option<Record>)
    ensures forall n :: n in fields && fields[n].Plain? ==>
              n in Scrubbed(fields, request, obj) && Scrubbed(fields, request, obj)[n] == fields[n]
  {
  }

  /** A field is removed exactly when it has a check that fails; every kept
      name keeps its binding, and no name is added. */
  lemma ScrubRemovesExactlyDenied(fields: map<string, Field>, request: Request, obj: Option<Record>)
    ensures Scrubbed(fields, request, obj).Keys <= fields.Keys
    ensures forall n :: n in fields ==>
              (n !in Scrubbed(fields, request, obj) <==> HasCheck(fields[n]) && !CheckOf(fields[n], request, obj))
    ensures forall n :: n in Scrubbed(fields, request, obj) ==> Scrubbed(fields, request, obj)[n] == fields[n]
  {
  }

  /** Scrubbing a scrubbed mapping changes nothing. */
  lemma ScrubIdempotent(fields: map<string, Field>, request: Request, obj: Option<Record>)
    ensures Scrubbed(Scrubbed(fields, request, obj), request, obj) == Scrubbed(fields, request, obj)
  {
    var once := Scrubbed(fields, request, obj);
    assert DeniedNames(once, request, obj) == {};
  }

  /** The names collected along the iteration order `order`. */
  function RemovalsIn(fields: map<string, Field>, order: seq<string>, request: Request, obj: Option<Record>): set<string>
  {
    if order == [] then {}
    else
      (if order[0] in fields && Denied(fields[order[0]], request, obj) then {order[0]} else {})
      + RemovalsIn(fields, order[1..], request, obj)
  }

  /** Collecting along an order gathers exactly the denied names it visits. */
  lemma {:induction false} RemovalsInCollects(fields: map<string, Field>, order: seq<string>, request: Request, obj: Option<Record>)
    ensures RemovalsIn(fields, order, request, obj)
            == set n | n in order && n in fields && Denied(fields[n], request, obj)
  {
    if order != [] {
      RemovalsInCollects(fields, order[1..], request, obj);
      assert forall n :: n in order <==> n == order[0] || n in order[1..];
    }
  }

  /** Whatever order the mapping is iterated in, the collected names are the
      same: the denied names. */
  lemma RemovalOrderIndependent(fields: map<string, Field>, order: seq<string>, request: Request, obj: Option<Record>)
    requires forall n :: n in order <==> n in fields
    ensures RemovalsIn(fields, order, request, obj) == DeniedNames(fields, request, obj)
  {
    RemovalsInCollects(fields, order, request, obj);
  }

  /** A nested serializer field guarded by `AllowNone`, single or as a
      collection, is absent from the album's fields. */
  lemma DeniedTracksRemoved(tracks: PermissionField, trackList: PermissionListSerializer, request: Request, album: Option<Record>)
    requires tracks.permissionClasses == [AllowNone]
    requires trackList.child.permissionClasses == [AllowNone]
    ensures "tracks" !in Scrubbed(map["album_name" := Plain("CharField"), "artist" := Plain("CharField"),
                                      "tracks" := Single(tracks)], request, album)
    ensures "tracks" !in Scrubbed(map["album_name" := Plain("CharField"), "artist" := Plain("CharField"),
                                      "tracks" := Many(trackList)], request, album)
    ensures "album_name" in Scrubbed(map["album_name" := Plain("CharField"), "artist" := Plain("CharField"),
                                         "tracks" := Single(tracks)], request, album)
  {
    assert !Grants(AllowNone, request, album);
  }

  /** A diary guarded by the ownership rule on `artist` is shown to the
      album's artist, hidden from the anonymous user, and, when a list of
      albums is scrubbed per album, shown for the artist's album only. */
  lemma OwnerSeesOwnRecordOnly(diary: PermissionField)
    requires diary.permissionClasses == [IsOwner("artist")]
    ensures var fields := map["album_name" := Plain("CharField"), "artist" := Plain("CharField"),
                              "diary" := Single(diary)];
            var artist := Request(Some(User("Album Artist", true)));
            var anonymous := Request(Some(AnonymousUser));
            var album := Some(Record(map["artist" := "Album Artist"]));
            var otherAlbum := Some(Record(map["artist" := "Other Album Artist"]));
            && "diary" in Scrubbed(fields, artist, album)
            && "diary" !in Scrubbed(fields, anonymous, album)
            && "diary" !in Scrubbed(fields, artist, otherAlbum)
  {
  }

  // ---------------------------------------------------------------------------
  // The scrub as written: the check is called with the request alone.
  // ---------------------------------------------------------------------------

  /** The scrub as written: a missing request raises, and the one-argument
      call of a two-argument check raises on the first permission-capable
      field; with no such field the mapping is returned whole. */
  function ScrubAsWritten(fields: map<string, Field>, context: map<string, Request>): (r: Result<map<string, Field>, PythonError>)
    ensures RequestKey !in context ==> r == Err(KeyError)
    ensures RequestKey in context ==> (r.Err? <==> exists n :: n in fields && HasCheck(fields[n]))
    ensures RequestKey in context && r.Err? ==> r.error == TypeError
    ensures r.Ok? ==> r.value == fields
  {
    if RequestKey !in context then Err(KeyError)
    else if exists n :: n in fields && HasCheck(fields[n]) then Err(TypeError)
    else Ok(fields)
  }

  /** Where the scrub as written returns a mapping, it returns what the
      intended scrub returns, for every instance. */
  lemma ScrubAsWrittenAgreesWhenReturning(fields: map<string, Field>, context: map<string, Request>, obj: Option<Record>)
    requires ScrubAsWritten(fields, context).Ok?
    ensures RequestKey in context
    ensures ScrubAsWritten(fields, context).value == Scrubbed(fields, context[RequestKey], obj)
  {
    assert DeniedNames(fields, context[RequestKey], obj) == {};
  }

  /** The album with tracks guarded by `AllowNone` raises as written, where
      the intended scrub removes the tracks. */
  lemma OneArgumentCheckRaises(tracks: PermissionField, request: Request, album: Option<Record>)
    requires tracks.permissionClasses == [AllowNone]
    ensures ScrubAsWritten(map["tracks" := Single(tracks)], map[RequestKey := request]) == Err(TypeError)
    ensures Scrubbed(map["tracks" := Single(tracks)], request, album) == map[]
  {
    var fields := map["tracks" := Single(tracks)];
    assert fields["tracks"].Single?;
    assert "tracks" in DeniedNames(fields, request, album);
  }
}
