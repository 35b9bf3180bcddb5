/**
 * The `Observation` model of lib/models/observation.js: an observation record
 * read from the search index, rewritten in place for one viewer. The
 * constructor derives `obscured` and `faves`, renames two preference keys for
 * v1.0 clients, fills `non_owner_ids`, drops the private coordinates unless
 * the viewer may see them, drops comments hidden by spam flags, and deletes
 * seven aggregate fields.
 */
module Observations {
  import opened Optional
  import opened SeqUtil

  /** A JSON value of an attribute the model only carries along. */
  datatype Json = JNull | JBool(b: bool) | JNum(n: real) | JStr(s: string) | JArr(elems: seq<Json>) | JObj(fields: map<string, Json>)

  /** JavaScript truthiness of a present value (`NaN` is not modelled). */
  predicate Truthy(j: Json) {
    match j
    case JNull => false
    case JBool(b) => b
    case JNum(n) => n != 0.0
    case JStr(s) => s != ""
    case JArr(_) => true
    case JObj(_) => true
  }

  /** Truthiness of `m[k]`, where an absent key reads as `undefined`. */
  predicate TruthyAt(m: map<string, Json>, k: string) {
    k in m && Truthy(m[k])
  }

  datatype User = User(id: int)
  /** A vote; `voteScope` is None when the record has no `vote_scope` field. */
  datatype Vote = Vote(user: User, voteScope: Option<Json>)
  datatype Identification = Identification(id: int, user: User)
  /** A project observation: the id of its `project` (if loaded) and its `preferences`. */
  datatype ProjectObservation = ProjectObservation(project: Option<int>, preferences: map<string, Json>)
  /** A flag names its flagger either through a loaded `user` or a bare `user_id`. */
  datatype Flag = Flag(flag: string, resolved: bool, user: Option<User>, userId: Option<int>)
  datatype Comment = Comment(id: int, flags: seq<Flag>)
  /** The viewer's session: `user_id`, `curated_project_ids`, `isAdmin`, `isCurator`. */
  datatype Session = Session(userId: Option<int>, curatedProjectIds: Option<seq<int>>, isAdmin: bool, isCurator: bool)
  datatype Options = Options(userSession: Option<Session>)

  /**
   * The attributes handed to the constructor. `votes` is None when the field
   * is absent or null; the other lists read an absent field as empty, and
   * `attrs` holds every attribute the code does not interpret.
   */
  datatype ObservationRecord = ObservationRecord(
    user: Option<User>,
    votes: Option<seq<Vote>>,
    preferences: map<string, Json>,
    identifications: seq<Identification>,
    nonOwnerIds: seq<Identification>,
    projectObservations: seq<ProjectObservation>,
    comments: seq<Comment>,
    attrs: map<string, Json>)

  const CommunityTaxonKey := "community_taxon"
  const PrefersCommunityTaxonKey := "prefers_community_taxon"
  const CuratorAccessKey := "curator_coordinate_access"
  const AllowsCuratorAccessKey := "allows_curator_coordinate_access"

  /** The fields removed when the viewer may not see the true coordinates. */
  const PrivateGeoFields: set<string> := {"private_place_ids", "private_location", "private_geojson", "private_place_guess"}

  /** The aggregate fields the constructor always removes. */
  const AggregateFields: set<string> := {
    "identification_categories", "identifier_user_ids", "non_owner_identifier_user_ids",
    "photo_licenses", "sound_licenses", "photos_count", "sounds_count"}

  /** Lines 27-33: the record without its aggregate fields; every other field stays as it was. */
  function WithoutAggregates(attrs: map<string, Json>): (r: map<string, Json>)
    ensures forall k :: k in r <==> k in attrs && k !in AggregateFields
    ensures forall k :: k in r ==> r[k] == attrs[k]
  {
    attrs - AggregateFields
  }

  /** Line 18: the observer asked for obscuring, or a true location is stored. */
  predicate IsObscured(attrs: map<string, Json>) {
    ("geoprivacy" in attrs && attrs["geoprivacy"] == JStr("obscured")) || TruthyAt(attrs, "private_location")
  }

  predicate IsFave(v: Vote) {
    v.voteScope == Some(JNull)
  }

  /** Lines 20-21: `_.filter(votes, v => v.vote_scope === null)`. */
  function Faves(votes: seq<Vote>): seq<Vote> {
    Filter(votes, IsFave)
  }

  /** The faves are the votes without a scope, in their order. */
  lemma FavesSpec(votes: seq<Vote>)
    ensures forall v :: v in Faves(votes) <==> v in votes && v.voteScope == Some(JNull)
    ensures IsSubsequence(Faves(votes), votes)
  {
    FilterMembers(votes, IsFave);
    FilterIsSubsequence(votes, IsFave);
  }

  /**
   * Lines 38-41 and 52-55: the value under `from` moves to `to` and `from`
   * disappears; a map without `from` is returned as it is.
   */
  function RenameKey(m: map<string, Json>, from: string, to: string): (r: map<string, Json>)
    ensures from !in m ==> r == m
    ensures from in m ==> from !in r
    ensures from in m && from != to ==> to in r && r[to] == m[from]
    ensures forall k :: k != from && k != to ==> (k in r <==> k in m)
    ensures forall k :: k != from && k != to && k in r ==> r[k] == m[k]
  {
    if from in m then m[to := m[from]] - {from} else m
  }

  /** Line 44: the identifications made by someone other than the observer. */
  function NonOwnerIdentifications(ids: seq<Identification>, owner: User): (r: seq<Identification>)
    ensures forall i :: i in r <==> i in ids && i.user.id != owner.id
    ensures IsSubsequence(r, ids)
  {
    var p := (i: Identification) => i.user.id != owner.id;
    FilterMembers(ids, p);
    FilterIsSubsequence(ids, p);
    Filter(ids, p)
  }

  /**
   * Lines 43-45: a non-empty `non_owner_ids` stays; an empty one is derived
   * from the identifications. Line 44 reads `this.user.id` once there is an
   * identification to test, so the observer must be known then.
   */
  function NonOwnerIds(nonOwnerIds: seq<Identification>, ids: seq<Identification>, user: Option<User>): (r: seq<Identification>)
    requires nonOwnerIds == [] && ids != [] ==> user.Some?
    ensures nonOwnerIds != [] ==> r == nonOwnerIds
    ensures nonOwnerIds == [] ==> IsSubsequence(r, ids)
    ensures nonOwnerIds == [] ==> forall i :: i in r <==> i in ids && i.user.id != user.value.id
  {
    if nonOwnerIds != [] then nonOwnerIds
    else if ids == [] then []
    else NonOwnerIdentifications(ids, user.value)
  }

  function CuratorAccessRenamed(po: ProjectObservation): ProjectObservation {
    po.(preferences := RenameKey(po.preferences, CuratorAccessKey, AllowsCuratorAccessKey))
  }

  /**
   * Lines 49-57: every project observation carries the curator-access
   * preference under its v1.0 name; nothing else about it changes.
   */
  function RenameCuratorAccess(pos: seq<ProjectObservation>): seq<ProjectObservation> {
    seq(|pos|, i requires 0 <= i < |pos| => CuratorAccessRenamed(pos[i]))
  }

  lemma RenameCuratorAccessSpec(pos: seq<ProjectObservation>)
    ensures var r := RenameCuratorAccess(pos);
      && |r| == |pos|
      && (forall i :: 0 <= i < |r| ==> r[i].project == pos[i].project && CuratorAccessKey !in r[i].preferences)
      && (forall i :: 0 <= i < |r| && CuratorAccessKey in pos[i].preferences ==>
            AllowsCuratorAccessKey in r[i].preferences &&
            r[i].preferences[AllowsCuratorAccessKey] == pos[i].preferences[CuratorAccessKey])
      && (forall i :: 0 <= i < |r| && CuratorAccessKey !in pos[i].preferences ==> r[i] == pos[i])
  {
  }

  /** Lines 69-72: the project observation lets curators of its project see the coordinates. */
  predicate GrantsCuratorAccess(po: ProjectObservation, curated: seq<int>) {
    po.project.Some? && po.project.value in curated && TruthyAt(po.preferences, AllowsCuratorAccessKey)
  }

  function CuratorAccessTo(curated: seq<int>): ProjectObservation -> bool {
    (po: ProjectObservation) => GrantsCuratorAccess(po, curated)
  }

  /** Lines 62-78: whether the session may see the private coordinates. */
  predicate CanSeePrivateCoordinates(user: Option<User>, session: Option<Session>, pos: seq<ProjectObservation>) {
    if session.None? || user.None? then false
    else
      var s := session.value;
      var viewerIsObserver := Some(user.value.id) == s.userId;
      var viewerHasCuratorAccess := s.curatedProjectIds.Some? && Find(pos, CuratorAccessTo(s.curatedProjectIds.value)).Some?;
      viewerIsObserver || viewerHasCuratorAccess
  }

  /** Lines 79-84: the private fields go unless the viewer may see them; nothing else changes. */
  function VisibleGeo(attrs: map<string, Json>, canSee: bool): (r: map<string, Json>)
    ensures canSee ==> r == attrs
    ensures !canSee ==> forall k :: k in r <==> k in attrs && k !in PrivateGeoFields
    ensures forall k :: k in r ==> k in attrs && r[k] == attrs[k]
  {
    if canSee then attrs else attrs - PrivateGeoFields
  }

  /** Line 93: `options.userSession && options.userSession.user_id`, kept only when truthy. */
  function SessionUserId(session: Option<Session>): Option<int> {
    if session.Some? && session.value.userId.Some? && session.value.userId.value != 0 then session.value.userId else None
  }

  /** Line 96: who raised the flag. */
  function FlagUserId(f: Flag): Option<int> {
    if f.user.Some? then Some(f.user.value.id) else f.userId
  }

  /** Lines 97-99: an unresolved spam flag, unless the viewer raised it. */
  predicate HidesComment(f: Flag, viewer: Option<int>) {
    f.flag == "spam" && !f.resolved && !(viewer.Some? && FlagUserId(f) == viewer)
  }

  function HiddenBy(viewer: Option<int>): Flag -> bool {
    (f: Flag) => HidesComment(f, viewer)
  }

  /** Line 95: a comment stays when no flag hides it from the viewer. */
  predicate CommentVisible(c: Comment, viewer: Option<int>) {
    c.flags == [] || Find(c.flags, HiddenBy(viewer)).None?
  }

  function VisibleTo(viewer: Option<int>): Comment -> bool {
    (c: Comment) => CommentVisible(c, viewer)
  }

  /** Lines 89-91: admins and curators see every comment. */
  predicate SeesAllComments(session: Option<Session>) {
    session.Some? && (session.value.isAdmin || session.value.isCurator)
  }

  /**
   * Lines 87-102: admins and curators keep all comments; anyone else keeps,
   * in order, exactly the comments without a flag that hides them.
   */
  function VisibleComments(comments: seq<Comment>, session: Option<Session>): seq<Comment> {
    if SeesAllComments(session) then comments else Filter(comments, VisibleTo(SessionUserId(session)))
  }

  lemma VisibleCommentsSpec(comments: seq<Comment>, session: Option<Session>)
    ensures var r := VisibleComments(comments, session);
      && (SeesAllComments(session) ==> r == comments)
      && (!SeesAllComments(session) ==> forall c :: c in r <==>
            c in comments && forall j :: 0 <= j < |c.flags| ==> !HidesComment(c.flags[j], SessionUserId(session)))
      && IsSubsequence(r, comments)
  {
    if SeesAllComments(session) {
      SubsequenceRefl(comments);
    } else {
      var p := VisibleTo(SessionUserId(session));
      FilterMembers(comments, p);
      FilterIsSubsequence(comments, p);
    }
  }

  /**
   * The v1.0 key still counts: after the rename of lines 49-57, the test of
   * lines 69-72 grants access by the old `curator_coordinate_access` value
   * when the record has it, and otherwise by `allows_curator_coordinate_access`.
   */
  predicate CuratorAccessValue(prefs: map<string, Json>) {
    if CuratorAccessKey in prefs then Truthy(prefs[CuratorAccessKey]) else TruthyAt(prefs, AllowsCuratorAccessKey)
  }

  lemma CuratorAccessAfterRename(po: ProjectObservation, curated: seq<int>)
    ensures GrantsCuratorAccess(CuratorAccessRenamed(po), curated) <==>
      po.project.Some? && po.project.value in curated && CuratorAccessValue(po.preferences)
  {
  }

  /** The geo redaction end to end: what line 75 decides, stated on the record the constructor received. */
  ghost predicate MaySeeCoordinates(user: Option<User>, session: Option<Session>, pos: seq<ProjectObservation>) {
    && session.Some? && user.Some?
    && (|| session.value.userId == Some(user.value.id)
        || (&& session.value.curatedProjectIds.Some?
            && exists i :: 0 <= i < |pos| && pos[i].project.Some? && pos[i].project.value in session.value.curatedProjectIds.value
                           && CuratorAccessValue(pos[i].preferences)))
  }

  lemma {:induction false} GeoVisibility(user: Option<User>, session: Option<Session>, pos: seq<ProjectObservation>)
    ensures CanSeePrivateCoordinates(user, session, RenameCuratorAccess(pos)) <==> MaySeeCoordinates(user, session, pos)
  {
    if session.Some? && user.Some? && session.value.curatedProjectIds.Some? {
      var curated := session.value.curatedProjectIds.value;
      var r := RenameCuratorAccess(pos);
      forall i | 0 <= i < |pos|
        ensures CuratorAccessTo(curated)(r[i]) <==>
          pos[i].project.Some? && pos[i].project.value in curated && CuratorAccessValue(pos[i].preferences)
      {
        CuratorAccessAfterRename(pos[i], curated);
      }
    }
  }

  /** A private field survives exactly when it was there and the viewer may see the coordinates. */
  lemma PrivateFieldVisibility(attrs: map<string, Json>, user: Option<User>, session: Option<Session>,
                               pos: seq<ProjectObservation>, k: string)
    requires k in PrivateGeoFields
    ensures k in VisibleGeo(attrs, CanSeePrivateCoordinates(user, session, RenameCuratorAccess(pos))) <==>
      k in attrs && MaySeeCoordinates(user, session, pos)
  {
    GeoVisibility(user, session, pos);
  }

  /** A viewer without a session never sees a comment with an unresolved spam flag. */
  lemma AnonymousSeesNoSpam(comments: seq<Comment>, c: Comment, j: int)
    requires c in VisibleComments(comments, None)
    requires 0 <= j < |c.flags| && c.flags[j].flag == "spam"
    ensures c.flags[j].resolved
  {
    VisibleCommentsSpec(comments, None);
    assert !HidesComment(c.flags[j], None);
  }

  /** A signed-in viewer still sees a comment whose unresolved spam flags are all the viewer's own. */
  lemma FlaggerSeesOwnFlags(comments: seq<Comment>, session: Option<Session>, c: Comment)
    requires c in comments && SessionUserId(session).Some?
    requires forall j :: 0 <= j < |c.flags| && c.flags[j].flag == "spam" && !c.flags[j].resolved ==>
      FlagUserId(c.flags[j]) == SessionUserId(session)
    ensures c in VisibleComments(comments, session)
  {
    VisibleCommentsSpec(comments, session);
  }

  /** Redacting the comments a second time for the same viewer changes nothing. */
  lemma VisibleCommentsIdempotent(comments: seq<Comment>, session: Option<Session>)
    ensures VisibleComments(VisibleComments(comments, session), session) == VisibleComments(comments, session)
  {
    if !SeesAllComments(session) {
      FilterIdempotent(comments, VisibleTo(SessionUserId(session)));
    }
  }

  /** An observation as its fields stand after `new Observation(attrs, options)`. */
  class Observation {
    var user: Option<User>
    var obscured: bool
    var votes: seq<Vote>
    var faves: seq<Vote>
    var preferences: map<string, Json>
    var identifications: seq<Identification>
    var nonOwnerIds: seq<Identification>
    var projectObservations: seq<ProjectObservation>
    var comments: seq<Comment>
    /** Every attribute the code does not interpret, the private and aggregate fields among them. */
    var attrs: map<string, Json>

    /**
     * Lines 15-34. `obscured` is taken from the record before the private
     * location can be removed, and the coordinate test sees the project
     * observations after their preferences were renamed.
     */
    constructor (rec: ObservationRecord, options: Options)
      requires rec.nonOwnerIds == [] && rec.identifications != [] ==> rec.user.Some?
      ensures user == rec.user && identifications == rec.identifications
      ensures obscured == IsObscured(rec.attrs)
      ensures votes == rec.votes.GetOr([]) && faves == Faves(votes)
      ensures preferences == RenameKey(rec.preferences, CommunityTaxonKey, PrefersCommunityTaxonKey)
      ensures nonOwnerIds == NonOwnerIds(rec.nonOwnerIds, rec.identifications, rec.user)
      ensures projectObservations == RenameCuratorAccess(rec.projectObservations)
      ensures attrs == WithoutAggregates(VisibleGeo(rec.attrs, CanSeePrivateCoordinates(rec.user, options.userSession, projectObservations)))
      ensures comments == VisibleComments(rec.comments, options.userSession)
    {
      user := rec.user;
      identifications := rec.identifications;
      nonOwnerIds := rec.nonOwnerIds;
      projectObservations := rec.projectObservations;
      comments := rec.comments;
      attrs := rec.attrs;
      obscured := IsObscured(rec.attrs);
      var votes0 := if rec.votes.Some? then rec.votes.value else [];
      votes := votes0;
      faves := Faves(votes0);
      preferences := rec.preferences;
      new;
      UpgradeForV1();
      RedactForViewer(options);
    }

    /** Lines 23-24: the v1.0 compatibility rewrites. */
    method UpgradeForV1()
      requires nonOwnerIds == [] && identifications != [] ==> user.Some?
      modifies this`preferences, this`nonOwnerIds, this`projectObservations
      ensures preferences == RenameKey(old(preferences), CommunityTaxonKey, PrefersCommunityTaxonKey)
      ensures nonOwnerIds == NonOwnerIds(old(nonOwnerIds), identifications, user)
      ensures projectObservations == RenameCuratorAccess(old(projectObservations))
    {
      MakeBackwardsCompatible();
      SetProjectObservationPreferences();
    }

    /** Lines 25-33: what the viewer may not see, and the aggregate fields, are removed. */
    method RedactForViewer(options: Options)
      modifies this`attrs, this`comments
      ensures attrs == WithoutAggregates(VisibleGeo(old(attrs), CanSeePrivateCoordinates(user, options.userSession, projectObservations)))
      ensures comments == VisibleComments(old(comments), options.userSession)
    {
      RemoveUnviewableGeo(options);
      RemoveUnviewableComments(options);
      attrs := WithoutAggregates(attrs);
    }

    /** Lines 36-46. */
    method MakeBackwardsCompatible()
      requires nonOwnerIds == [] && identifications != [] ==> user.Some?
      modifies this`preferences, this`nonOwnerIds
      ensures preferences == RenameKey(old(preferences), CommunityTaxonKey, PrefersCommunityTaxonKey)
      ensures nonOwnerIds == NonOwnerIds(old(nonOwnerIds), identifications, user)
    {
      if CommunityTaxonKey in preferences {
        preferences := preferences[PrefersCommunityTaxonKey := preferences[CommunityTaxonKey]];
        preferences := preferences - {CommunityTaxonKey};
      }
      if nonOwnerIds == [] {
        nonOwnerIds := if identifications == [] then [] else NonOwnerIdentifications(identifications, user.value);
      }
    }

    /** Lines 48-59: the loop over the project observations, one preference map at a time. */
    method SetProjectObservationPreferences()
      modifies this`projectObservations
      ensures projectObservations == RenameCuratorAccess(old(projectObservations))
    {
      var i := 0;
      while i < |projectObservations|
        invariant 0 <= i <= |projectObservations| == |old(projectObservations)|
        invariant forall j :: 0 <= j < i ==> projectObservations[j] == CuratorAccessRenamed(old(projectObservations)[j])
        invariant forall j :: i <= j < |projectObservations| ==> projectObservations[j] == old(projectObservations)[j]
      {
        var po := projectObservations[i];
        if CuratorAccessKey in po.preferences {
          var prefs := po.preferences[AllowsCuratorAccessKey := po.preferences[CuratorAccessKey]];
          prefs := prefs - {CuratorAccessKey};
          projectObservations := projectObservations[i := po.(preferences := prefs)];
        }
        i := i + 1;
      }
    }

    /** Lines 61-85. */
    method RemoveUnviewableGeo(options: Options)
      modifies this`attrs
      ensures attrs == VisibleGeo(old(attrs), CanSeePrivateCoordinates(user, options.userSession, projectObservations))
    {
      var viewerCanSeePrivateCoordinates := false;
      if options.userSession.Some? && user.Some? {
        var session := options.userSession.value;
        var viewerIsObserver := Some(user.value.id) == session.userId;
        var viewerHasCuratorCoordinateAccess := false;
        if session.curatedProjectIds.Some? {
          viewerHasCuratorCoordinateAccess := Find(projectObservations, CuratorAccessTo(session.curatedProjectIds.value)).Some?;
        }
        if viewerIsObserver || viewerHasCuratorCoordinateAccess {
          viewerCanSeePrivateCoordinates := true;
        }
      }
      if !viewerCanSeePrivateCoordinates {
        attrs := attrs - {"private_place_ids"};
        attrs := attrs - {"private_location"};
        attrs := attrs - {"private_geojson"};
        attrs := attrs - {"private_place_guess"};
      }
    }

    /** Lines 87-102. */
    method RemoveUnviewableComments(options: Options)
      modifies this`comments
      ensures comments == VisibleComments(old(comments), options.userSession)
    {
      if SeesAllComments(options.userSession) {
        return;
      }
      var sessionUserID := SessionUserId(options.userSession);
      comments := Filter(comments, VisibleTo(sessionUserID));
    }
  }
}
