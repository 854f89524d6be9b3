/** The authentication context of the client: the signed-in user, the
    `authLoading` flag, the copy of the user kept in local storage, and the
    learning-progress record (semester -> subject -> unit -> topics) that
    `markTopicAsLearned` updates in place. The auth provider's SDK is not
    modelled: what its calls return is passed in. */
module AuthContext {
  import opened JsValues

  type Topics = seq<string>
  type Units = map<string, Topics>
  type Subjects = map<string, Units>
  type Progress = map<string, Subjects>

  /** Every level down to the unit exists. */
  predicate HasUnit(p: Progress, semester: string, subject: string, unit: string) {
    semester in p && subject in p[semester] && unit in p[semester][subject]
  }

  /** The topics recorded for a unit; none when a level is missing. */
  function TopicsOf(p: Progress, semester: string, subject: string, unit: string): Topics {
    if HasUnit(p, semester, subject, unit) then p[semester][subject][unit] else []
  }

  function SubjectsOf(p: Progress, semester: string): Subjects {
    if semester in p then p[semester] else map[]
  }

  function UnitsOf(p: Progress, semester: string, subject: string): Units {
    var subjects := SubjectsOf(p, semester);
    if subject in subjects then subjects[subject] else map[]
  }

  /** The progress after marking `topic` learned in a unit. The three levels
      exist afterwards, and only the missing ones were created; the unit's
      topics gain `topic` at the end unless it was already there, keeping
      their order; every other semester, subject and unit is as before. */
  function Marked(p: Progress, semester: string, subject: string, unit: string, topic: string): (q: Progress)
    ensures HasUnit(q, semester, subject, unit)
    ensures topic in TopicsOf(q, semester, subject, unit)
    ensures TopicsOf(q, semester, subject, unit) ==
              if topic in TopicsOf(p, semester, subject, unit) then TopicsOf(p, semester, subject, unit)
              else TopicsOf(p, semester, subject, unit) + [topic]
    ensures q.Keys == p.Keys + {semester}
    ensures q[semester].Keys == SubjectsOf(p, semester).Keys + {subject}
    ensures q[semester][subject].Keys == UnitsOf(p, semester, subject).Keys + {unit}
    ensures forall s :: s in p && s != semester ==> q[s] == p[s]
    ensures forall j :: j in SubjectsOf(p, semester) && j != subject ==> q[semester][j] == p[semester][j]
    ensures forall u :: u in UnitsOf(p, semester, subject) && u != unit ==>
              q[semester][subject][u] == p[semester][subject][u]
  {
    var subjects := SubjectsOf(p, semester);
    var units := UnitsOf(p, semester, subject);
    var topics := TopicsOf(p, semester, subject, unit);
    p[semester := subjects[subject := units[unit := if topic in topics then topics else topics + [topic]]]]
  }

  /** Marking the same topic twice leaves the progress as marking it once. */
  lemma MarkedIdempotent(p: Progress, semester: string, subject: string, unit: string, topic: string)
    ensures Marked(Marked(p, semester, subject, unit, topic), semester, subject, unit, topic)
            == Marked(p, semester, subject, unit, topic)
  {
    var q := Marked(p, semester, subject, unit, topic);
    var r := Marked(q, semester, subject, unit, topic);
    assert TopicsOf(r, semester, subject, unit) == TopicsOf(q, semester, subject, unit);
    assert r[semester][subject] == q[semester][subject];
    assert r[semester] == q[semester];
  }

  predicate NoDuplicates(topics: Topics) {
    forall i, j :: 0 <= i < j < |topics| ==> topics[i] != topics[j]
  }

  /** No unit of the record lists a topic twice. */
  ghost predicate DuplicateFree(p: Progress) {
    forall s, j, u :: NoDuplicates(TopicsOf(p, s, j, u))
  }

  /** A unit list without duplicates stays without duplicates. */
  lemma {:induction false} MarkedKeepsUnitDuplicateFree(p: Progress, semester: string, subject: string, unit: string, topic: string)
    requires NoDuplicates(TopicsOf(p, semester, subject, unit))
    ensures NoDuplicates(TopicsOf(Marked(p, semester, subject, unit, topic), semester, subject, unit))
  {
    var before := TopicsOf(p, semester, subject, unit);
    if topic !in before {
      var after := before + [topic];
      forall i, j | 0 <= i < j < |after| ensures after[i] != after[j] {
        if j == |before| {
          assert after[i] == before[i];
        }
      }
    }
  }

  /** Marking keeps the whole record free of duplicate topics. */
  lemma MarkedKeepsDuplicateFree(p: Progress, semester: string, subject: string, unit: string, topic: string)
    requires DuplicateFree(p)
    ensures DuplicateFree(Marked(p, semester, subject, unit, topic))
  {
    var q := Marked(p, semester, subject, unit, topic);
    forall s, j, u ensures NoDuplicates(TopicsOf(q, s, j, u)) {
      if s == semester && j == subject && u == unit {
        MarkedKeepsUnitDuplicateFree(p, s, j, u, topic);
      } else {
        MarkedLeavesOtherUnits(p, semester, subject, unit, topic, s, j, u);
      }
    }
  }

  /** Every unit other than the marked one lists the same topics as before. */
  lemma MarkedLeavesOtherUnits(p: Progress, semester: string, subject: string, unit: string, topic: string,
                               s: string, j: string, u: string)
    requires s != semester || j != subject || u != unit
    ensures TopicsOf(Marked(p, semester, subject, unit, topic), s, j, u) == TopicsOf(p, s, j, u)
  {
    var q := Marked(p, semester, subject, unit, topic);
    if s != semester {
    } else if j != subject {
      assert HasUnit(q, s, j, u) == HasUnit(p, s, j, u);
    } else {
      assert HasUnit(q, s, j, u) == HasUnit(p, s, j, u);
    }
  }

  // ---------------------------------------------------------------------
  // The context's state

  /** A JavaScript progress object. Several user records can hold the same
      one, and `markTopicAsLearned` changes it in place. */
  class ProgressTable {
    var entries: Progress

    constructor (entries: Progress)
      ensures this.entries == entries
    {
      this.entries := entries;
    }
  }

  /** The user record kept in React state. */
  datatype PublicUser = PublicUser(
    id: Field,
    email: Field,
    progress: ProgressTable,
    fullName: Field,
    studentId: Field)

  /** A user record as `JSON.stringify` writes it to local storage and
      `JSON.parse` reads it back. */
  datatype StoredUser = StoredUser(
    id: Field,
    email: Field,
    progress: Progress,
    fullName: Field,
    studentId: Field)

  function Snapshot(u: PublicUser): StoredUser
    reads u.progress
  {
    StoredUser(u.id, u.email, u.progress.entries, u.fullName, u.studentId)
  }

  /** `(JSON.parse(localStorage.getItem("user")) || {}).progress || {}`:
      the cached progress, or none when nothing is cached. */
  function CachedProgress(storage: Option<StoredUser>): Progress {
    if storage.Some? then storage.value.progress else map[]
  }

  /** `user_metadata` as the OAuth provider fills it. */
  datatype Metadata = Metadata(fullName: Field, name: Field)

  /** `session.user` as the auth provider reports it. */
  datatype SessionUser = SessionUser(id: string, email: Field, metadata: Metadata)

  /** What `getSession()` gives: a session (with or without a user) or an exception. */
  datatype SessionLookup = Found(sessionUser: Option<SessionUser>) | LookupThrew

  /** The `profiles` row selected after the upsert. */
  datatype Profile = Profile(fullName: Field, studentId: Field)

  /** The row the listener upserts into `profiles`. */
  datatype ProfileUpsert = ProfileUpsert(id: string, fullName: Field)

  /** `user_metadata?.full_name || user_metadata?.name || null`: the first
      non-empty of the two names, or null. */
  function OAuthFullName(m: Metadata): (name: Field)
    ensures name.Some? <==> Truthy(m.fullName) || Truthy(m.name)
    ensures Truthy(m.fullName) ==> name == m.fullName
    ensures !Truthy(m.fullName) && Truthy(m.name) ==> name == m.name
    ensures name.Some? ==> name.value != ""
  {
    var chosen := Or(m.fullName, m.name);
    if Truthy(chosen) then chosen else None
  }

  class AuthProvider {
    var user: Option<PublicUser>
    var authLoading: bool
    /** The "user" entry of local storage, parsed. */
    var storage: Option<StoredUser>
    /** `DEFAULT_USER.progress`: one object, created when the module loads
        and shared by every provider that mounts afterwards. */
    const defaultProgress: ProgressTable

    /** The progress object `markTopicAsLearned` writes into next: the
        user's, or the default user's when nobody is signed in. */
    function Table(): ProgressTable
      reads this
    {
      if user.Some? then user.value.progress else defaultProgress
    }

    /** Whenever a user is signed in, local storage holds a copy of it. */
    ghost predicate Valid()
      reads this, Table()
    {
      user.Some? ==> storage == Some(Snapshot(user.value))
    }

    /** The provider as it mounts: no user yet, still loading, whatever an
        earlier visit left in local storage, and the module's one default
        progress object, with whatever earlier providers wrote into it. */
    constructor (stored: Option<StoredUser>, sharedDefault: ProgressTable)
      ensures Valid()
      ensures user == None && authLoading && storage == stored
      ensures defaultProgress == sharedDefault
    {
      user := None;
      authLoading := true;
      storage := stored;
      defaultProgress := sharedDefault;
    }

    /** The initial session restore. A session user becomes the signed-in
        user with the cached progress; without one nothing changes; in every
        case, an exception included, loading ends. */
    method Init(lookup: SessionLookup)
      requires Valid()
      modifies this
      ensures Valid() && !authLoading
      ensures lookup.Found? && lookup.sessionUser.Some? ==>
                var s := lookup.sessionUser.value;
                && user.Some? && fresh(user.value.progress)
                && user.value == PublicUser(Some(s.id), s.email, user.value.progress, None, None)
                && user.value.progress.entries == CachedProgress(old(storage))
    ensures !(lookup.Found? && lookup.sessionUser.Some?) ==> user == old(user) && storage == old(storage)
    {
      if lookup.Found? && lookup.sessionUser.Some? {
        var s := lookup.sessionUser.value;
        var progress := new ProgressTable(CachedProgress(storage));
        var publicUser := PublicUser(Some(s.id), s.email, progress, None, None);
        user := Some(publicUser);
        storage := Some(Snapshot(publicUser));
      }
      authLoading := false;
    }

    /** One auth-state-change event. With a session user, the user gets its
        `id` and `email`, the cached progress and, when the profile row
        came back, its name and student id, and the profile upsert is made;
        without one, the user and the cache are cleared. Loading ends. */
    method OnAuthStateChange(sessionUser: Option<SessionUser>, profile: Option<Profile>)
      returns (upsert: Option<ProfileUpsert>)
      requires Valid()
      modifies this
      ensures Valid() && !authLoading
      ensures sessionUser.None? ==> user == None && storage == None && upsert == None
      ensures sessionUser.Some? ==>
                var s := sessionUser.value;
                && upsert == Some(ProfileUpsert(s.id, OAuthFullName(s.metadata)))
                && user.Some? && fresh(user.value.progress)
                && user.value.id == Some(s.id) && user.value.email == s.email
                && user.value.progress.entries == CachedProgress(old(storage))
                && user.value.fullName == (if profile.Some? then profile.value.fullName else None)
                && user.value.studentId == (if profile.Some? then profile.value.studentId else None)
    {
      if sessionUser.Some? {
        var s := sessionUser.value;
        var progress := new ProgressTable(CachedProgress(storage));
        var publicUser := PublicUser(Some(s.id), s.email, progress, None, None);
        upsert := Some(ProfileUpsert(s.id, OAuthFullName(s.metadata)));
        if profile.Some? {
          publicUser := publicUser.(fullName := profile.value.fullName, studentId := profile.value.studentId);
        }
        user := Some(publicUser);
        storage := Some(Snapshot(publicUser));
      } else {
        upsert := None;
        user := None;
        storage := None;
      }
      authLoading := false;
    }

    /** `signOut`: once the SDK call returns, the user and the cache are
        cleared. If the SDK call throws, the statements after it do not run. */
    method SignOut(sdkThrew: bool)
      requires Valid()
      modifies this
      ensures Valid() && authLoading == old(authLoading)
      ensures !sdkThrew ==> user == None && storage == None
      ensures sdkThrew ==> user == old(user) && storage == old(storage)
    {
      if !sdkThrew {
        user := None;
        storage := None;
      }
    }

    /** `markTopicAsLearned`, as written: the current user, or a shallow copy
        of `DEFAULT_USER` when nobody is signed in, has its progress object
        updated in place level by level, and is stored and cached. The
        shallow copy shares `DEFAULT_USER.progress`, so without a user it is
        that shared object that changes. */
    method MarkTopicAsLearned(semester: string, subject: string, unit: string, topic: string)
      requires Valid()
      modifies this, Table()
      ensures Valid() && authLoading == old(authLoading)
      ensures user == Some(if old(user).Some? then old(user).value else PublicUser(None, None, defaultProgress, None, None))
      ensures Table() == old(Table())
      ensures Table().entries == Marked(old(Table().entries), semester, subject, unit, topic)
    {
      var base := if user.Some? then user.value else PublicUser(None, None, defaultProgress, None, None);
      var progress := base.progress.entries;
      // base.progress[semester] ??= {}
      var subjects := if semester in progress then progress[semester] else map[];
      // base.progress[semester][subject] ??= {}
      var units := if subject in subjects then subjects[subject] else map[];
      // base.progress[semester][subject][unit] ??= []
      var topics := if unit in units then units[unit] else [];
      // push the topic unless it is already there
      if topic !in topics {
        topics := topics + [topic];
      }
      base.progress.entries := progress[semester := subjects[subject := units[unit := topics]]];
      storage := Some(Snapshot(base));
      user := Some(base);
    }

    /** `markTopicAsLearned` as evidently intended: without a user, the
        update starts from a fresh `{ progress: {} }`. */
    method MarkTopicAsLearnedFromFreshDefault(semester: string, subject: string, unit: string, topic: string)
      requires Valid()
      modifies this, if user.Some? then {user.value.progress} else {}
      ensures Valid() && authLoading == old(authLoading)
      ensures user.Some?
      ensures old(user).Some? ==>
                && user == old(user)
                && user.value.progress.entries == Marked(old(user.value.progress.entries), semester, subject, unit, topic)
      ensures old(user).None? ==>
                && fresh(user.value.progress)
                && user.value == PublicUser(None, None, user.value.progress, None, None)
                && user.value.progress.entries == Marked(map[], semester, subject, unit, topic)
      ensures unchanged(defaultProgress) || old(user).Some?
    {
      if user.None? {
        var table := new ProgressTable(map[]);
        user := Some(PublicUser(None, None, table, None, None));
      }
      var table := user.value.progress;
      table.entries := Marked(table.entries, semester, subject, unit, topic);
      storage := Some(Snapshot(user.value));
    }
  }

  /** Marking progress with nobody signed in, signing out, and marking again
      with nobody signed in: the second record still holds the topic marked
      before the sign-out, because both records share `DEFAULT_USER.progress`. */
  method DefaultProgressLeaks() returns (topics: Topics)
    ensures topics == ["Sets", "Relations"]
  {
    var defaultProgress := new ProgressTable(map[]);
    var context := new AuthProvider(None, defaultProgress);
    context.MarkTopicAsLearned("1", "Maths", "Unit 1", "Sets");
    context.SignOut(false);
    assert context.user == None;
    context.MarkTopicAsLearned("1", "Maths", "Unit 1", "Relations");
    topics := TopicsOf(context.user.value.progress.entries, "1", "Maths", "Unit 1");
  }

  /** The leak outlives the provider: after a sign-out has emptied local
      storage, a provider mounted later in the same page load reads that
      same (now empty) storage and starts its signed-out record from the
      progress an earlier provider marked. */
  method DefaultProgressLeaksAcrossMounts() returns (topics: Topics)
    ensures topics == ["Sets", "Relations"]
  {
    var defaultProgress := new ProgressTable(map[]);
    var first := new AuthProvider(None, defaultProgress);
    first.MarkTopicAsLearned("1", "Maths", "Unit 1", "Sets");
    first.SignOut(false);
    var second := new AuthProvider(first.storage, defaultProgress);
    second.MarkTopicAsLearned("1", "Maths", "Unit 1", "Relations");
    topics := TopicsOf(second.user.value.progress.entries, "1", "Maths", "Unit 1");
  }

  /** The same sequence with the corrected update: the second record holds
      only what was marked after the sign-out. */
  method FreshDefaultDoesNotLeak() returns (topics: Topics)
    ensures topics == ["Relations"]
  {
    var defaultProgress := new ProgressTable(map[]);
    var context := new AuthProvider(None, defaultProgress);
    context.MarkTopicAsLearnedFromFreshDefault("1", "Maths", "Unit 1", "Sets");
    context.SignOut(false);
    assert context.user == None;
    context.MarkTopicAsLearnedFromFreshDefault("1", "Maths", "Unit 1", "Relations");
    topics := TopicsOf(context.user.value.progress.entries, "1", "Maths", "Unit 1");
  }
}
