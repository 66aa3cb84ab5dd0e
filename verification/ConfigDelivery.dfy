/**
 Conditional delivery of a store's configuration: publishes that change the content and advance
 its version in one transaction, interleaved with requests that read the version and then, when
 the client's validator does not match, build the document statement by statement: the store's
 row, its published sets, their snapshots, their assignments.

 `history` records what each store published at each version; nothing in the system reads it.
 */
module ConfigDelivery {
  import opened Common
  import opened ConfigEtags

  /** A published option set, at the version its last publish gave it. */
  datatype SetRow = SetRow(id: string, version: nat)

  /** What a document is built from: the published sets in order, and what is stored of each. */
  datatype Content = Content(sets: seq<SetRow>, snapshots: map<SetRow, string>, assignments: map<string, string>)

  const NOTHING := Content([], map[], map[])

  /** A publish writes a set and its snapshot in one transaction. */
  predicate Complete(content: Content) { forall i :: 0 <= i < |content.sets| ==> content.sets[i] in content.snapshots }

  datatype StoreRow = StoreRow(version: nat, content: Content, pushUrl: string)

  datatype Push = Push(storeId: string, version: nat)

  datatype Db = Db(stores: map<string, StoreRow>, pushes: seq<Push>)

  /** A set as a document carries it: named by id and version, its snapshot, its assignments if it has any. */
  datatype OptionSet = OptionSet(row: SetRow, snapshot: string, assignments: Option<string>)

  datatype Document = Document(version: nat, optionSets: seq<OptionSet>)

  datatype Failure = NoStore

  // ---------------------------------------------------------------- assembling

  function AssignmentsOf(assignments: map<string, string>, id: string): Option<string> {
    if id in assignments then Some(assignments[id]) else None
  }

  /** The document's sets from three reads; a set whose snapshot was not found is skipped. */
  function Assembled(
    sets: seq<SetRow>, snapshots: map<SetRow, string>, assignments: map<string, string>): seq<OptionSet>
  {
    if sets == [] then []
    else if sets[0] !in snapshots then Assembled(sets[1..], snapshots, assignments)
    else [OptionSet(sets[0], snapshots[sets[0]], AssignmentsOf(assignments, sets[0].id))]
         + Assembled(sets[1..], snapshots, assignments)
  }

  /** What a store publishes. */
  function OptionSets(content: Content): seq<OptionSet> {
    Assembled(content.sets, content.snapshots, content.assignments)
  }

  /** The sets whose snapshots were found. */
  function Found(sets: seq<SetRow>, snapshots: map<SetRow, string>): seq<SetRow> {
    if sets == [] then []
    else (if sets[0] in snapshots then [sets[0]] else []) + Found(sets[1..], snapshots)
  }

  /** What three reads found agrees with what was published, set by set. */
  ghost predicate ReadAs(
    sets: seq<SetRow>, snapshots: map<SetRow, string>, assignments: map<string, string>, content: Content)
  {
    && Found(sets, snapshots) == content.sets
    && (forall i :: 0 <= i < |content.sets| ==>
          var row := content.sets[i];
          && row in snapshots && row in content.snapshots && snapshots[row] == content.snapshots[row]
          && AssignmentsOf(assignments, row.id) == AssignmentsOf(content.assignments, row.id))
  }

  lemma {:induction false} AssembledAt(
    sets: seq<SetRow>, snapshots: map<SetRow, string>, assignments: map<string, string>)
    ensures var found, r := Found(sets, snapshots), Assembled(sets, snapshots, assignments);
      && |r| == |found|
      && forall i :: 0 <= i < |found| ==>
           && found[i] in snapshots
           && r[i] == OptionSet(found[i], snapshots[found[i]], AssignmentsOf(assignments, found[i].id))
  {
    if sets != [] { AssembledAt(sets[1..], snapshots, assignments); }
  }

  lemma NothingAssembled()
    ensures Assembled([], map[], map[]) == []
  {
  }

  lemma {:induction false} AllFound(sets: seq<SetRow>, snapshots: map<SetRow, string>)
    requires forall i :: 0 <= i < |sets| ==> sets[i] in snapshots
    ensures Found(sets, snapshots) == sets
  {
    if sets != [] { AllFound(sets[1..], snapshots); }
  }

  /** A document is what was published exactly when each of its reads was. */
  lemma {:induction false} AssembledAlike(
    sets: seq<SetRow>, snapshots: map<SetRow, string>, assignments: map<string, string>, content: Content)
    requires Complete(content)
    ensures Assembled(sets, snapshots, assignments) == OptionSets(content) <==>
      ReadAs(sets, snapshots, assignments, content)
  {
    AssembledAt(sets, snapshots, assignments);
    AssembledAt(content.sets, content.snapshots, content.assignments);
    AllFound(content.sets, content.snapshots);
    hide Found, Assembled, AssignmentsOf;
    var read, was, found := Assembled(sets, snapshots, assignments), OptionSets(content), Found(sets, snapshots);
    if read == was {
      assert forall i :: 0 <= i < |found| ==> read[i].row == found[i] && was[i].row == content.sets[i];
      assert found == content.sets;
      assert forall i :: 0 <= i < |found| ==> read[i] == was[i];
    } else if found == content.sets {
      var i :| 0 <= i < |read| && read[i] != was[i];
      assert found[i] == content.sets[i];
    }
  }

  // ---------------------------------------------------------------- publishing

  /** The version advanced by one, with the push that announces it where there is somewhere to send it. */
  function Bumped(db: Db, storeId: string): Result<Db, Failure> {
    if storeId !in db.stores then Err(NoStore)
    else
      var row := db.stores[storeId];
      Ok(Db(db.stores[storeId := row.(version := row.version + 1)],
            if row.pushUrl == "" then db.pushes else db.pushes + [Push(storeId, row.version + 1)]))
  }

  /** One publish: the change and the bump commit together or not at all. */
  function Published(db: Db, storeId: string, content: Content): Result<Db, Failure> {
    if storeId !in db.stores then Err(NoStore)
    else Bumped(db.(stores := db.stores[storeId := db.stores[storeId].(content := content)]), storeId)
  }

  // ---------------------------------------------------------------- delivery

  datatype Reply = NotModified(etag: string) | Full(etag: string, document: Document) | StoreGone

  /** The conditional half of `deliver`: an answer, or nothing yet. */
  function AnswerFromVersion(db: Db, storeId: string, header: Option<string>): Option<Reply> {
    if storeId !in db.stores then Some(StoreGone)
    else
      var etag := ConfigEtag(storeId, db.stores[storeId].version);
      if MatchesEtag(header, etag) then Some(NotModified(etag)) else None
  }

  /** What a statement of the builder sees of a store's content; a store that is gone has none. */
  function ContentOf(db: Db, storeId: string): Content {
    if storeId in db.stores then db.stores[storeId].content else NOTHING
  }

  /** The document just built, under the validator of the version its own store row carried. */
  function AnswerWith(storeId: string, version: nat, optionSets: seq<OptionSet>): Stage {
    Replied(Full(ConfigEtag(storeId, version), Document(version, optionSets)))
  }

  // ---------------------------------------------------------------- the protocol

  /** The statement a request executes next, and what it has read for its document. */
  datatype Stage =
    | ReadingVersion | Building
    | ReadingSets(version: nat) | ReadingSnapshots(version: nat, sets: seq<SetRow>)
    | ReadingAssignments(version: nat, sets: seq<SetRow>, snapshots: map<SetRow, string>)
    | Replied(reply: Reply) | Received

  /** A request; `held` is the copy the client had when it sent its validator. */
  datatype Request = Request(client: nat, storeId: string, header: Option<string>, held: Option<Document>, stage: Stage)

  datatype Cached = Cached(etag: string, document: Document)

  datatype Client = Client(storeId: string, cache: Option<Cached>)

  datatype State = State(db: Db, clients: seq<Client>, requests: seq<Request>, history: map<(string, nat), Content>)

  datatype Action =
    | Create(storeId: string, content: Content, pushUrl: string)
    | Publish(storeId: string, content: Content)
    | Remove(storeId: string)
    | Connect(storeId: string)
    | Ask(client: nat)
    | Advance(request: nat)

  const EMPTY := State(Db(map[], []), [], [], map[])

  /** Store ids are never used twice. */
  ghost predicate Enabled(s: State, a: Action) {
    match a
    case Create(id, content, _) => Complete(content) && IsStoreId(id) && id !in s.db.stores
      && forall v: nat :: (id, v) !in s.history
    case Publish(_, content) => Complete(content)
    case Remove(_) => true
    case Connect(id) => IsStoreId(id)
    case Ask(c) => c < |s.clients|
    case Advance(r) => r < |s.requests| && !s.requests[r].stage.Received?
  }

  function Apply(s: State, a: Action): State {
    match a
    case Create(id, content, pushUrl) =>
      s.(db := s.db.(stores := s.db.stores[id := StoreRow(0, content, pushUrl)]),
        history := s.history[(id, 0) := content])
    case Publish(id, content) =>
      (match Published(s.db, id, content)
       case Err(_) => s
       case Ok(db) =>
         s.(db := db, history := s.history[(id, if id in db.stores then db.stores[id].version else 0) := content]))
    case Remove(id) => s.(db := s.db.(stores := s.db.stores - {id}))
    case Connect(id) => s.(clients := s.clients + [Client(id, None)])
    case Ask(c) =>
      if c >= |s.clients| then s
      else
        var client := s.clients[c];
        var request := match client.cache
          case None => Request(c, client.storeId, None, None, ReadingVersion)
          case Some(cached) => Request(c, client.storeId, Some(cached.etag), Some(cached.document), ReadingVersion);
        s.(requests := s.requests + [request])
    case Advance(r) => if r < |s.requests| then Advanced(s, r) else s
  }

  /** The next statement of the builder: what the request has read after it, or its answer. */
  function BuildStep(db: Db, storeId: string, stage: Stage): Stage {
    match stage
    case Building => if storeId in db.stores then ReadingSets(db.stores[storeId].version) else Replied(StoreGone)
    case ReadingSets(version) =>
      var sets := ContentOf(db, storeId).sets;
      if sets == [] then AnswerWith(storeId, version, []) else ReadingSnapshots(version, sets)
    case ReadingSnapshots(version, sets) => ReadingAssignments(version, sets, ContentOf(db, storeId).snapshots)
    case ReadingAssignments(version, sets, snapshots) =>
      AnswerWith(storeId, version, Assembled(sets, snapshots, ContentOf(db, storeId).assignments))
    case _ => stage
  }

  function Advanced(s: State, r: nat): State
    requires r < |s.requests|
  {
    var q := s.requests[r];
    match q.stage
    case ReadingVersion =>
      var answer := AnswerFromVersion(s.db, q.storeId, q.header);
      s.(requests := s.requests[r := q.(stage := if answer.Some? then Replied(answer.value) else Building)])
    case Replied(reply) =>
      var done := s.(requests := s.requests[r := q.(stage := Received)]);
      if reply.Full? && q.client < |s.clients|
      then
        var cached := Some(Cached(reply.etag, reply.document));
        done.(clients := s.clients[q.client := s.clients[q.client].(cache := cached)])
      else done
    case Received => s
    case _ => s.(requests := s.requests[r := q.(stage := BuildStep(s.db, q.storeId, q.stage))])
  }

  ghost predicate Legal(s: State, actions: seq<Action>)
    decreases |actions|
  {
    actions == [] || (Enabled(s, actions[0]) && Legal(Apply(s, actions[0]), actions[1..]))
  }

  ghost function Exec(s: State, actions: seq<Action>): State
    requires Legal(s, actions)
    decreases |actions|
  {
    if actions == [] then s else Exec(Apply(s, actions[0]), actions[1..])
  }

  // ---------------------------------------------------------------- the invariant

  /** The document is what the store published at its version. */
  ghost predicate Genuine(s: State, storeId: string, d: Document) {
    (storeId, d.version) in s.history && OptionSets(s.history[(storeId, d.version)]) == d.optionSets
  }

  ghost predicate StoreOk(s: State, id: string)
    requires id in s.db.stores
  {
    && IsStoreId(id)
    && (id, s.db.stores[id].version) in s.history
    && s.history[(id, s.db.stores[id].version)] == s.db.stores[id].content
    && forall v: nat :: (id, v) in s.history ==> v <= s.db.stores[id].version
  }

  ghost predicate Started(s: State, id: string, v: nat) {
    (id, v) in s.history && (id in s.db.stores ==> v <= s.db.stores[id].version)
  }

  ghost predicate Current(s: State, id: string, v: nat) { id in s.db.stores && s.db.stores[id].version == v }

  /** The document's version was published, and its content is the store's for as long as the store is at it. */
  ghost predicate DocumentOk(s: State, id: string, d: Document) {
    Started(s, id, d.version) && (Current(s, id, d.version) ==> d.optionSets == OptionSets(s.db.stores[id].content))
  }

  /** What a building request has read agrees with the store for as long as the store is at its version. */
  ghost predicate StageOk(s: State, id: string, stage: Stage) {
    match stage
    case ReadingSets(v) => Started(s, id, v)
    case ReadingSnapshots(v, sets) =>
      Started(s, id, v) && sets != [] && (Current(s, id, v) ==> sets == s.db.stores[id].content.sets)
    case ReadingAssignments(v, sets, snapshots) =>
      Started(s, id, v) && sets != [] && (Current(s, id, v) ==>
        sets == s.db.stores[id].content.sets && snapshots == s.db.stores[id].content.snapshots)
    case Replied(Full(etag, d)) => etag == ConfigEtag(id, d.version) && DocumentOk(s, id, d)
    case _ => true
  }

  ghost predicate ClientOk(s: State, c: Client) {
    IsStoreId(c.storeId) && (c.cache.Some? ==>
      c.cache.value.etag == ConfigEtag(c.storeId, c.cache.value.document.version)
      && DocumentOk(s, c.storeId, c.cache.value.document))
  }

  ghost predicate RequestOk(s: State, q: Request) {
    && IsStoreId(q.storeId)
    && q.client < |s.clients| && s.clients[q.client].storeId == q.storeId
    && (match q.held
        case None => q.header.None?
        case Some(d) => q.header == Some(ConfigEtag(q.storeId, d.version)) && DocumentOk(s, q.storeId, d))
    && StageOk(s, q.storeId, q.stage)
  }

  ghost predicate Inv(s: State) {
    && (forall id :: id in s.db.stores ==> StoreOk(s, id))
    && (forall c :: 0 <= c < |s.clients| ==> ClientOk(s, s.clients[c]))
    && (forall r :: 0 <= r < |s.requests| ==> RequestOk(s, s.requests[r]))
  }

  /**
   Published content is never rewritten, clients stay with their stores, and a store's content
   changes only together with its version, which only grows; a store that is gone stays gone.
   */
  ghost predicate Keeps(s: State, s': State) {
    && (forall key :: key in s.history ==> key in s'.history && s'.history[key] == s.history[key])
    && |s.clients| <= |s'.clients|
    && (forall c :: 0 <= c < |s.clients| ==> s'.clients[c].storeId == s.clients[c].storeId)
    && (forall id, v: nat :: (id, v) in s.history && id in s'.db.stores ==> id in s.db.stores)
    && (forall id :: id in s.db.stores && id in s'.db.stores ==>
         && s.db.stores[id].version <= s'.db.stores[id].version
         && (s'.db.stores[id].version == s.db.stores[id].version ==>
           s'.db.stores[id].content == s.db.stores[id].content))
  }

  /** Clients and their requests write no table. */
  lemma ClientStepKeeps(s: State, a: Action)
    requires Enabled(s, a) && (a.Connect? || a.Ask? || a.Advance?)
    ensures Apply(s, a).db == s.db && Apply(s, a).history == s.history
    ensures |s.clients| <= |Apply(s, a).clients|
    ensures forall c :: 0 <= c < |s.clients| ==> Apply(s, a).clients[c].storeId == s.clients[c].storeId
  {
    hide AnswerFromVersion, BuildStep;
  }

  lemma StoreStepKeeps(s: State, a: Action)
    requires Inv(s) && Enabled(s, a) && (a.Create? || a.Publish? || a.Remove?)
    ensures Keeps(s, Apply(s, a))
  {
    hide Complete, IsStoreId;
    if a.Publish? && a.storeId in s.db.stores {
      assert StoreOk(s, a.storeId);
    }
  }

  lemma StepKeeps(s: State, a: Action)
    requires Inv(s) && Enabled(s, a)
    ensures Keeps(s, Apply(s, a))
  {
    hide Apply, Inv;
    if a.Create? || a.Publish? || a.Remove? {
      StoreStepKeeps(s, a);
    } else {
      ClientStepKeeps(s, a);
    }
  }

  lemma StoresKept(s: State, a: Action, id: string)
    requires Inv(s) && Enabled(s, a) && id in Apply(s, a).db.stores
    ensures StoreOk(Apply(s, a), id)
  {
    StepKeeps(s, a);
    if id in s.db.stores { assert StoreOk(s, id); }
  }

  lemma DocumentStays(s: State, s': State, id: string, d: Document)
    requires Keeps(s, s') && DocumentOk(s, id, d)
    ensures DocumentOk(s', id, d)
  {
  }

  lemma StageStays(s: State, s': State, id: string, stage: Stage)
    requires Keeps(s, s') && StageOk(s, id, stage)
    ensures StageOk(s', id, stage)
  {
    hide ConfigEtag;
    if stage.Replied? && stage.reply.Full? { DocumentStays(s, s', id, stage.reply.document); }
  }

  lemma ClientStays(s: State, s': State, c: Client)
    requires Keeps(s, s') && ClientOk(s, c)
    ensures ClientOk(s', c)
  {
    hide ConfigEtag, IsStoreId, Keeps;
    if c.cache.Some? { DocumentStays(s, s', c.storeId, c.cache.value.document); }
  }

  lemma ClientsKept(s: State, a: Action, c: nat)
    requires Inv(s) && Enabled(s, a) && c < |Apply(s, a).clients|
    ensures ClientOk(Apply(s, a), Apply(s, a).clients[c])
  {
    hide ConfigEtag, IsStoreId, MatchesEtag, Keeps, DocumentOk;
    var s' := Apply(s, a);
    StepKeeps(s, a);
    if c < |s.clients| {
      assert ClientOk(s, s.clients[c]);
      ClientStays(s, s', s.clients[c]);
    }
    if a.Advance? {
      var q := s.requests[a.request];
      assert RequestOk(s, q);
      StageStays(s, s', q.storeId, q.stage);
    }
  }

  lemma RequestStays(s: State, s': State, q: Request)
    requires Keeps(s, s') && RequestOk(s, q)
    ensures RequestOk(s', q)
  {
    StageStays(s, s', q.storeId, q.stage);
    hide ConfigEtag, IsStoreId, StageOk, DocumentOk;
    if q.held.Some? { DocumentStays(s, s', q.storeId, q.held.value); }
  }

  lemma AskedOk(s: State, a: Action)
    requires Inv(s) && Enabled(s, a) && a.Ask?
    ensures RequestOk(Apply(s, a), Apply(s, a).requests[|s.requests|])
  {
    hide ConfigEtag, IsStoreId;
    assert ClientOk(s, s.clients[a.client]);
  }

  /** A statement of the builder reads what the store holds when it runs. */
  lemma BuildStepOk(s: State, id: string, stage: Stage)
    requires StageOk(s, id, stage) && (id in s.db.stores ==> StoreOk(s, id))
    ensures StageOk(s, id, BuildStep(s.db, id, stage))
  {
    hide ConfigEtag, IsStoreId;
  }

  lemma AdvancedOk(s: State, r: nat)
    requires Inv(s) && r < |s.requests| && !s.requests[r].stage.Received?
    ensures RequestOk(Advanced(s, r), Advanced(s, r).requests[r])
  {
    hide ConfigEtag, MatchesEtag, IsStoreId, BuildStep;
    var q, s' := s.requests[r], Advanced(s, r);
    assert RequestOk(s, q);
    assert q.storeId in s.db.stores ==> StoreOk(s, q.storeId);
    BuildStepOk(s, q.storeId, q.stage);
    assert forall id, d :: DocumentOk(s, id, d) ==> DocumentOk(s', id, d);
    assert forall id, stage :: StageOk(s, id, stage) ==> StageOk(s', id, stage);
  }

  lemma RequestsKept(s: State, a: Action, r: nat)
    requires Inv(s) && Enabled(s, a) && r < |Apply(s, a).requests|
    ensures RequestOk(Apply(s, a), Apply(s, a).requests[r])
  {
    hide RequestOk, Keeps, ConfigEtag, MatchesEtag, Published, AnswerFromVersion, BuildStep;
    StepKeeps(s, a);
    if r >= |s.requests| {
      AskedOk(s, a);
    } else if a == Advance(r) {
      AdvancedOk(s, r);
    } else {
      assert Apply(s, a).requests[r] == s.requests[r] && RequestOk(s, s.requests[r]);
      RequestStays(s, Apply(s, a), s.requests[r]);
    }
  }

  lemma {:induction false} InvKept(s: State, a: Action)
    requires Inv(s) && Enabled(s, a)
    ensures Inv(Apply(s, a))
  {
    var s' := Apply(s, a);
    forall id | id in s'.db.stores ensures StoreOk(s', id) { StoresKept(s, a, id); }
    forall c: nat | c < |s'.clients| ensures ClientOk(s', s'.clients[c]) { ClientsKept(s, a, c); }
    forall r: nat | r < |s'.requests| ensures RequestOk(s', s'.requests[r]) { RequestsKept(s, a, r); }
  }

  lemma {:induction false} InvReached(s: State, actions: seq<Action>)
    requires Inv(s) && Legal(s, actions)
    ensures Inv(Exec(s, actions))
    decreases |actions|
  {
    if actions != [] {
      InvKept(s, actions[0]);
      InvReached(Apply(s, actions[0]), actions[1..]);
    }
  }

  // ---------------------------------------------------------------- a 304 is never stale

  /**
   Whatever publishes land between a request's reads, a cached document is under the validator of a
   version its store published, never a later one than the store's, and while the store is at that
   version the document is what the store holds.
   */
  lemma CachesAgree(actions: seq<Action>, c: nat)
    requires Legal(EMPTY, actions) && c < |Exec(EMPTY, actions).clients| && Exec(EMPTY, actions).clients[c].cache.Some?
    ensures var s := Exec(EMPTY, actions);
      var client, cached := s.clients[c], s.clients[c].cache.value;
      && cached.etag == ConfigEtag(client.storeId, cached.document.version)
      && (client.storeId, cached.document.version) in s.history
      && (client.storeId in s.db.stores ==>
            var row := s.db.stores[client.storeId];
            && cached.document.version <= row.version
            && (cached.document.version == row.version ==> cached.document.optionSets == OptionSets(row.content)))
  {
    InvReached(EMPTY, actions);
    var s := Exec(EMPTY, actions);
    assert ClientOk(s, s.clients[c]);
  }

  /** Every published content is complete. */
  ghost predicate Recorded(s: State) { forall key :: key in s.history ==> Complete(s.history[key]) }

  lemma {:induction false} RecordedReached(s: State, actions: seq<Action>)
    requires Recorded(s) && Legal(s, actions)
    ensures Recorded(Exec(s, actions))
    decreases |actions|
  {
    if actions != [] {
      hide Complete;
      RecordedReached(Apply(s, actions[0]), actions[1..]);
    }
  }

  /** The reads a request has done when its next statement completes the document. */
  function Reads(db: Db, id: string, stage: Stage): (seq<SetRow>, map<SetRow, string>, map<string, string>) {
    match stage
    case ReadingAssignments(_, sets, snapshots) => (sets, snapshots, ContentOf(db, id).assignments)
    case _ => ([], map[], map[])
  }

  /**
   A request whose next statement completes its document: the document bears the version the store's
   row had when the builder read it, and is what was published at that version exactly when each of
   the three later reads found what that version had. In particular it is when the store is still at it.
   */
  lemma {:induction false} GenuineExactly(actions: seq<Action>, r: nat)
    requires Legal(EMPTY, actions) && r < |Exec(EMPTY, actions).requests|
    requires var q := Exec(EMPTY, actions).requests[r];
      && (q.stage.ReadingSets? || q.stage.ReadingAssignments?)
      && BuildStep(Exec(EMPTY, actions).db, q.storeId, q.stage).Replied?
    ensures var s := Exec(EMPTY, actions);
      var q, s' := s.requests[r], Advanced(s, r);
      var (id, v, reply) := (q.storeId, q.stage.version, s'.requests[r].stage.reply);
      var (sets, snapshots, assignments) := Reads(s.db, id, q.stage);
      && reply.Full? && reply.etag == ConfigEtag(id, v) && reply.document.version == v && (id, v) in s'.history
      && (Genuine(s', id, reply.document) <==> ReadAs(sets, snapshots, assignments, s'.history[(id, v)]))
      && (Current(s', id, v) ==> Genuine(s', id, reply.document))
  {
    InvReached(EMPTY, actions);
    RecordedReached(EMPTY, actions);
    hide Exec, Legal, Complete, ReadAs, ConfigEtag, Assembled;
    var s := Exec(EMPTY, actions);
    var q := s.requests[r];
    assert RequestOk(s, q) && (q.storeId in s.db.stores ==> StoreOk(s, q.storeId));
    var (sets, snapshots, assignments) := Reads(s.db, q.storeId, q.stage);
    AssembledAlike(sets, snapshots, assignments, s.history[(q.storeId, q.stage.version)]);
    NothingAssembled();
  }

  /** The publishes of one store in a run. */
  function PublishesOf(actions: seq<Action>, id: string): nat {
    if actions == [] then 0
    else (if actions[0].Publish? && actions[0].storeId == id then 1 else 0) + PublishesOf(actions[1..], id)
  }

  /** A store's version counts its publishes: it is still at the version read exactly when none has landed since. */
  lemma {:induction false} VersionCountsPublishes(s: State, actions: seq<Action>, id: string)
    requires Inv(s) && Legal(s, actions) && id in s.db.stores && id in Exec(s, actions).db.stores
    ensures Exec(s, actions).db.stores[id].version == s.db.stores[id].version + PublishesOf(actions, id)
    decreases |actions|
  {
    if actions != [] {
      assert StoreOk(s, id);
      var next := Apply(s, actions[0]);
      InvKept(s, actions[0]);
      StaysGone(next, actions[1..], id, s.db.stores[id].version);
      VersionCountsPublishes(next, actions[1..], id);
    }
  }

  lemma {:induction false} StaysGone(s: State, actions: seq<Action>, id: string, v: nat)
    requires Inv(s) && Legal(s, actions) && (id, v) in s.history && id in Exec(s, actions).db.stores
    ensures id in s.db.stores
    decreases |actions|
  {
    if actions != [] {
      InvKept(s, actions[0]);
      StepKeeps(s, actions[0]);
      StaysGone(Apply(s, actions[0]), actions[1..], id, v);
    }
  }

  /** The builder's remaining statements, run without interruption. */
  function Finished(db: Db, id: string, stage: Stage): Stage {
    BuildStep(db, id, BuildStep(db, id, BuildStep(db, id, stage)))
  }

  /** A publish that changes an assignment of a published set, or brings out a first one. */
  function Disturbing(content: Content): Content {
    if content.sets == [] then Content([SetRow("", 1)], map[SetRow("", 1) := ""], map[])
    else
      var id := content.sets[0].id;
      var other := if AssignmentsOf(content.assignments, id) == Some("") then "x" else "";
      content.(assignments := content.assignments[id := other])
  }

  /** What a building request has read so far is the store's content. */
  ghost predicate InStep(stage: Stage, content: Content) {
    match stage
    case ReadingSets(_) => true
    case ReadingSnapshots(_, sets) => sets != [] && sets == content.sets
    case ReadingAssignments(_, sets, snapshots) => sets != [] && sets == content.sets && snapshots == content.snapshots
    case _ => false
  }

  lemma FinishedInStep(db: Db, id: string, stage: Stage)
    requires id in db.stores && InStep(stage, db.stores[id].content)
    ensures Finished(db, id, stage) == AnswerWith(id, stage.version, OptionSets(db.stores[id].content))
  {
  }

  lemma DisturbingDiffers(stage: Stage, content: Content)
    requires Complete(content) && InStep(stage, content)
    ensures var disturbed := Disturbing(content);
      Complete(disturbed) && InStep(stage, disturbed) && OptionSets(disturbed) != OptionSets(content)
  {
    var disturbed := Disturbing(content);
    AssembledAlike(disturbed.sets, disturbed.snapshots, disturbed.assignments, content);
    AllFound(disturbed.sets, disturbed.snapshots);
    hide Assembled, Found;
    assert content.sets != [] ==> disturbed.sets == content.sets;
  }

  /**
   Between any two of the builder's reads some publish makes the document differ from what was
   published at the version it bears; without one it is what was published.
   */
  lemma {:induction false} AnyGapTears(actions: seq<Action>, r: nat)
    requires Legal(EMPTY, actions) && r < |Exec(EMPTY, actions).requests|
    requires var s := Exec(EMPTY, actions);
      var q := s.requests[r];
      && (q.stage.ReadingSets? || q.stage.ReadingSnapshots? || q.stage.ReadingAssignments?)
      && Current(s, q.storeId, q.stage.version)
    ensures var s := Exec(EMPTY, actions);
      var (id, stage) := (s.requests[r].storeId, s.requests[r].stage);
      var publish := Publish(id, Disturbing(s.db.stores[id].content));
      var (now, later) := (Finished(s.db, id, stage), Finished(Apply(s, publish).db, id, stage));
      && Enabled(s, publish)
      && now.Replied? && now.reply.Full? && later.Replied? && later.reply.Full?
      && now.reply.etag == later.reply.etag == ConfigEtag(id, stage.version)
      && now.reply.document.version == later.reply.document.version == stage.version
      && Genuine(Apply(s, publish), id, now.reply.document) && !Genuine(Apply(s, publish), id, later.reply.document)
  {
    InvReached(EMPTY, actions);
    RecordedReached(EMPTY, actions);
    var s := Exec(EMPTY, actions);
    hide Exec, Legal, ConfigEtag, Assembled, Finished, Disturbing, Complete;
    var (id, stage) := (s.requests[r].storeId, s.requests[r].stage);
    assert RequestOk(s, s.requests[r]) && StoreOk(s, id);
    var content := s.db.stores[id].content;
    DisturbingDiffers(stage, content);
    FinishedInStep(s.db, id, stage);
    FinishedInStep(Apply(s, Publish(id, Disturbing(content))).db, id, stage);
  }

  lemma FirstThen(s: State, a: Action, rest: seq<Action>)
    requires Enabled(s, a) && Legal(Apply(s, a), rest)
    ensures Legal(s, [a] + rest) && Exec(s, [a] + rest) == Exec(Apply(s, a), rest)
  {
    assert ([a] + rest)[1..] == rest;
  }

  const SET := SetRow("set", 1)
  const OLD := Content([SET], map[SET := ""], map["set" := "old"])
  const NEW := Content([SET], map[SET := ""], map["set" := "new"])

  /** A store with one client, whose one request held nothing and is at `stage`. */
  function Asking(
    id: string, version: nat, content: Content, history: map<(string, nat), Content>, stage: Stage): State
  {
    var db := Db(map[id := StoreRow(version, content, "")], []);
    State(db, [Client(id, None)], [Request(0, id, None, None, stage)], history)
  }

  lemma AskingBuilds(id: string, version: nat, content: Content, history: map<(string, nat), Content>, stage: Stage)
    requires !stage.ReadingVersion? && !stage.Replied? && !stage.Received?
    ensures var s := Asking(id, version, content, history, stage);
      Apply(s, Advance(0)) == Asking(id, version, content, history, BuildStep(s.db, id, stage))
  {
  }

  lemma TornAssembly()
    ensures Assembled([SET], OLD.snapshots, NEW.assignments) == [OptionSet(SET, "", Some("new"))]
  {
    assert Assembled([SET][1..], OLD.snapshots, NEW.assignments) == [];
  }

  /** What the client is left with: under version 0, what the store published at version 1. */
  const TORN := Document(0, [OptionSet(SET, "", Some("new"))])

  function Torn(id: string, history: map<(string, nat), Content>): State {
    State(Db(map[id := StoreRow(1, NEW, "")], []), [Client(id, Some(Cached(ConfigEtag(id, 0), TORN)))],
          [Request(0, id, None, None, Received)], history)
  }

  lemma TornPublish(id: string, early: map<(string, nat), Content>, late: map<(string, nat), Content>)
    requires late == early[(id, 1) := NEW]
    ensures var last := ReadingAssignments(0, [SET], OLD.snapshots);
      Apply(Asking(id, 0, OLD, early, last), Publish(id, NEW)) == Asking(id, 1, NEW, late, last)
  {
  }

  lemma TornReceived(id: string, late: map<(string, nat), Content>)
    ensures Apply(Asking(id, 1, NEW, late, Replied(Full(ConfigEtag(id, 0), TORN))), Advance(0)) == Torn(id, late)
  {
    hide ConfigEtag;
  }

  /** From a read version to the client's cache, with a publish between the snapshots and the assignments. */
  lemma TornBuild(id: string, early: map<(string, nat), Content>, late: map<(string, nat), Content>)
    returns (run: seq<Action>)
    requires late == early[(id, 1) := NEW]
    ensures Legal(Asking(id, 0, OLD, early, Building), run)
    ensures Exec(Asking(id, 0, OLD, early, Building), run) == Torn(id, late)
  {
    var before := (stage: Stage) => Asking(id, 0, OLD, early, stage);
    var last, reply := ReadingAssignments(0, [SET], OLD.snapshots), Full(ConfigEtag(id, 0), TORN);
    AskingBuilds(id, 1, NEW, late, last);
    AskingBuilds(id, 0, OLD, early, ReadingSnapshots(0, [SET]));
    AskingBuilds(id, 0, OLD, early, ReadingSets(0));
    AskingBuilds(id, 0, OLD, early, Building);
    TornPublish(id, early, late);
    TornReceived(id, late);
    TornAssembly();
    hide ConfigEtag, Apply, Assembled, Asking, Torn;
    FirstThen(Asking(id, 1, NEW, late, Replied(reply)), Advance(0), []);
    run := [Advance(0)];
    FirstThen(Asking(id, 1, NEW, late, last), Advance(0), run);
    run := [Advance(0)] + run;
    FirstThen(before(last), Publish(id, NEW), run);
    run := [Publish(id, NEW)] + run;
    FirstThen(before(ReadingSnapshots(0, [SET])), Advance(0), run);
    run := [Advance(0)] + run;
    FirstThen(before(ReadingSets(0)), Advance(0), run);
    run := [Advance(0)] + run;
    FirstThen(before(Building), Advance(0), run);
    run := [Advance(0)] + run;
  }

  /** A run in which a client caches a document that its store never published at the document's version. */
  lemma TornDocumentCached(id: string) returns (run: seq<Action>)
    requires IsStoreId(id)
    ensures Legal(EMPTY, run)
    ensures Exec(EMPTY, run) == Torn(id, map[(id, 0) := OLD, (id, 1) := NEW])
    ensures !Genuine(Exec(EMPTY, run), id, TORN)
  {
    var first := map[(id, 0) := OLD];
    var created := State(Db(map[id := StoreRow(0, OLD, "")], []), [], [], first);
    var joined := created.(clients := [Client(id, None)]);
    assert Apply(EMPTY, Create(id, OLD, "")) == created;
    assert Apply(created, Connect(id)) == joined;
    assert Apply(joined, Ask(0)) == Asking(id, 0, OLD, first, ReadingVersion);
    assert Apply(Asking(id, 0, OLD, first, ReadingVersion), Advance(0)) == Asking(id, 0, OLD, first, Building);
    assert Assembled([SET], OLD.snapshots, OLD.assignments)[0].assignments == Some("old");
    assert Complete(OLD);
    run := TornBuild(id, first, map[(id, 0) := OLD, (id, 1) := NEW]);
    hide ConfigEtag, Apply, Assembled, Asking, IsStoreId, Complete;
    FirstThen(Asking(id, 0, OLD, first, ReadingVersion), Advance(0), run);
    run := [Advance(0)] + run;
    FirstThen(joined, Ask(0), run);
    run := [Ask(0)] + run;
    FirstThen(created, Connect(id), run);
    run := [Connect(id)] + run;
    FirstThen(EMPTY, Create(id, OLD, ""), run);
    run := [Create(id, OLD, "")] + run;
  }

  lemma HeaderDecides(storeId: string, held: Option<Document>, header: Option<string>, version: nat)
    requires IsStoreId(storeId)
    requires match held case None => header.None? case Some(d) => header == Some(ConfigEtag(storeId, d.version))
    ensures MatchesEtag(header, ConfigEtag(storeId, version)) <==> held.Some? && held.value.version == version
  {
    match held
    case None =>
    case Some(d) =>
      var listed := [Presented(storeId, d.version, true, "", "")];
      assert Listed(listed) == ConfigEtag(storeId, d.version);
      hide ConfigEtag, MatchesEtag, IsStoreId;
      MatchesExactly(listed, storeId, version);
      assert Names(listed, storeId, version) <==> d.version == version;
  }

  /**
   A request is answered `not modified` exactly when the client's copy is the document current at
   that moment, and never otherwise.
   */
  lemma {:induction false} NotModifiedMeansCurrent(actions: seq<Action>, r: nat)
    requires Legal(EMPTY, actions) && r < |Exec(EMPTY, actions).requests|
    requires Exec(EMPTY, actions).requests[r].stage.ReadingVersion?
    requires Exec(EMPTY, actions).requests[r].storeId in Exec(EMPTY, actions).db.stores
    ensures var s := Exec(EMPTY, actions);
      var q, next := s.requests[r], Advanced(s, r).requests[r].stage;
      var row := s.db.stores[q.storeId];
      && (next.Replied? <==> q.held == Some(Document(row.version, OptionSets(row.content))))
      && (next.Replied? ==> next.reply == NotModified(ConfigEtag(q.storeId, row.version)))
      && (!next.Replied? ==> next == Building)
  {
    InvReached(EMPTY, actions);
    var s := Exec(EMPTY, actions);
    var q := s.requests[r];
    hide ConfigEtag, MatchesEtag, IsStoreId, Exec, Legal;
    assert RequestOk(s, q) && StoreOk(s, q.storeId);
    HeaderDecides(q.storeId, q.held, q.header, s.db.stores[q.storeId].version);
  }

  /** A store that is gone is answered so, by whichever statement of the request looks for its row. */
  lemma GoneStoreAnswered(s: State, r: nat)
    requires r < |s.requests| && (s.requests[r].stage.ReadingVersion? || s.requests[r].stage.Building?)
    ensures Advanced(s, r).requests[r].stage == Replied(StoreGone) <==> s.requests[r].storeId !in s.db.stores
  {
  }

  ghost predicate SameStore(was: Db, now: Db, id: string) {
    (id in now.stores <==> id in was.stores) && (id in was.stores ==> now.stores[id] == was.stores[id])
  }

  /** What one action makes of one store: its row, and what is recorded of it. */
  lemma StoreWrites(s: State, a: Action, id: string)
    requires Enabled(s, a)
    ensures var now := Apply(s, a);
      match a
      case Create(created, content, pushUrl) =>
        if created == id then
          id in now.db.stores && now.db.stores[id] == StoreRow(0, content, pushUrl) && now.history[(id, 0)] == content
        else SameStore(s.db, now.db, id)
      case Publish(published, content) =>
        if published == id && id in s.db.stores then
          var row := s.db.stores[id];
          && id in now.db.stores && now.db.stores[id] == StoreRow(row.version + 1, content, row.pushUrl)
          && (id, row.version + 1) in now.history && now.history[(id, row.version + 1)] == content
        else SameStore(s.db, now.db, id)
      case Remove(removed) =>
        if removed == id then id !in now.db.stores
        else SameStore(s.db, now.db, id)
      case _ => now.db == s.db && now.history == s.history
  {
    hide AnswerFromVersion, BuildStep, Complete, IsStoreId;
  }

  // ---------------------------------------------------------------- every advance is announced

  function PushesFor(pushes: seq<Push>, storeId: string): seq<nat> {
    if pushes == [] then []
    else PushesFor(pushes[..|pushes| - 1], storeId)
         + (if pushes[|pushes| - 1].storeId == storeId then [pushes[|pushes| - 1].version] else [])
  }

  /** The versions `1..n`, in order. */
  function Versions(n: nat): (r: seq<nat>)
    ensures |r| == n && forall i :: 0 <= i < n ==> r[i] == i + 1
  {
    seq(n, i requires 0 <= i => i + 1)
  }

  ghost predicate Announced(s: State) {
    && (forall id :: id in s.db.stores && s.db.stores[id].pushUrl != "" ==>
         PushesFor(s.db.pushes, id) == Versions(s.db.stores[id].version))
    && (forall id :: (forall v: nat :: (id, v) !in s.history) ==> PushesFor(s.db.pushes, id) == [])
  }

  lemma PushAdded(pushes: seq<Push>, p: Push, id: string)
    ensures PushesFor(pushes + [p], id) == PushesFor(pushes, id) + if p.storeId == id then [p.version] else []
  {
    assert (pushes + [p])[..|pushes|] == pushes;
  }

  lemma {:induction false} PublishAnnounced(s: State, a: Action)
    requires Inv(s) && Announced(s) && a.Publish? && a.storeId in s.db.stores && s.db.stores[a.storeId].pushUrl != ""
    ensures Announced(Apply(s, a))
  {
    hide Inv, ConfigEtag, PushesFor;
    var s', p := Apply(s, a), Push(a.storeId, s.db.stores[a.storeId].version + 1);
    assert s'.db.pushes == s.db.pushes + [p];
    forall id
      ensures PushesFor(s'.db.pushes, id) == PushesFor(s.db.pushes, id) + if id == a.storeId then [p.version] else []
    {
      PushAdded(s.db.pushes, p, id);
    }
    assert Versions(p.version) == Versions(p.version - 1) + [p.version];
    assert (a.storeId, p.version) in s'.history;
    assert forall id, v: nat :: (id, v) in s.history ==> (id, v) in s'.history;
  }

  lemma {:induction false} AnnouncedKept(s: State, a: Action)
    requires Inv(s) && Announced(s) && Enabled(s, a)
    ensures Announced(Apply(s, a))
  {
    if a.Publish? && a.storeId in s.db.stores && s.db.stores[a.storeId].pushUrl != "" {
      PublishAnnounced(s, a);
    } else {
      QuietAnnounced(s, a);
    }
  }

  /** A step that queues no push. */
  lemma {:induction false} QuietAnnounced(s: State, a: Action)
    requires Inv(s) && Announced(s) && Enabled(s, a)
    requires !(a.Publish? && a.storeId in s.db.stores && s.db.stores[a.storeId].pushUrl != "")
    ensures Announced(Apply(s, a))
  {
    hide PushesFor, Inv, Complete;
    if a.Connect? || a.Ask? || a.Advance? {
      hide Apply;
      ClientStepKeeps(s, a);
    } else {
      assert Apply(s, a).db.pushes == s.db.pushes;
    }
  }

  lemma {:induction false} AnnouncedReached(s: State, actions: seq<Action>)
    requires Inv(s) && Announced(s) && Legal(s, actions)
    ensures Announced(Exec(s, actions))
    decreases |actions|
  {
    if actions != [] {
      InvKept(s, actions[0]);
      AnnouncedKept(s, actions[0]);
      AnnouncedReached(Apply(s, actions[0]), actions[1..]);
    }
  }

  /** A store with a push address is sent each of its versions once, in order, whatever else happens. */
  lemma EveryVersionPushedOnce(actions: seq<Action>, id: string)
    requires Legal(EMPTY, actions) && id in Exec(EMPTY, actions).db.stores
    requires Exec(EMPTY, actions).db.stores[id].pushUrl != ""
    ensures var s := Exec(EMPTY, actions); PushesFor(s.db.pushes, id) == Versions(s.db.stores[id].version)
  {
    AnnouncedReached(EMPTY, actions);
  }

  // ---------------------------------------------------------------- the service

  /** A bump of a missing store is refused and changes nothing; otherwise it returns the new version. */
  predicate BumpDone(was: Db, now: Db, storeId: string, version: Result<nat, Failure>) {
    match Bumped(was, storeId)
    case Err(e) => version == Err(e) && now == was
    case Ok(db) => now == db && storeId in db.stores && version == Ok(db.stores[storeId].version)
  }

  /** `ConfigVersionService`, inside its caller's transaction. */
  class ConfigVersionService {
    var stores: map<string, StoreRow>
    var pushes: seq<Push>

    constructor (db: Db)
      ensures stores == db.stores && pushes == db.pushes
    {
      stores, pushes := db.stores, db.pushes;
    }

    method Bump(storeId: string) returns (version: Result<nat, Failure>)
      modifies this
      ensures BumpDone(old(Db(stores, pushes)), Db(stores, pushes), storeId, version)
    {
      var affected := if storeId in stores then 1 else 0;
      if storeId in stores {
        stores := stores[storeId := stores[storeId].(version := stores[storeId].version + 1)];
      }
      if affected == 0 {
        return Err(NoStore);
      }
      var store := stores[storeId];
      EnqueuePush(storeId, store);
      return Ok(store.version);
    }

    method EnqueuePush(storeId: string, store: StoreRow)
      modifies this`pushes
      ensures pushes == if store.pushUrl == "" then old(pushes) else old(pushes) + [Push(storeId, store.version)]
    {
      if store.pushUrl == "" {
        return;
      }
      pushes := pushes + [Push(storeId, store.version)];
    }

    /** A draft is invisible to storefronts, so changing one moves nothing. */
    method BumpIfVisible(storeId: string, wasVisible: bool) returns (version: Option<Result<nat, Failure>>)
      modifies this
      ensures !wasVisible ==> version.None? && stores == old(stores) && pushes == old(pushes)
      ensures wasVisible ==>
        version.Some? && BumpDone(old(Db(stores, pushes)), Db(stores, pushes), storeId, version.value)
    {
      if !wasVisible {
        return None;
      }
      var bumped := Bump(storeId);
      return Some(bumped);
    }
  }
}
