/**
 The convergence protocol as a state machine: PostgreSQL rows are the desired state, every
 Xray node holds a volatile set of (tag, email) entries, one actor per node runs reconcile
 passes, and service requests write the database first and wake the actors afterwards.

 Each action is one atomic database statement, one RPC, or one channel operation, so a run is
 an arbitrary interleaving of requests, sweeps, actors, node restarts and failures.

 The node fields `dirty`, `missed`, `orphans`, `skipped`, `asked`, `remRead` and `desRead`, and the state
 fields `clock` and `issued`, are history; module HistoryInert proves that the node ones never
 influence what can happen, nor entries, rows, users, tokens or phases.
 */
module Protocol {
  import opened Domain

  /** What an Xray inbound stores about a user, as far as add and remove can see. */
  datatype Entry = Entry(tag: string, email: string)

  /** A row handed from the store to the reconciler (DesiredAssignment). */
  datatype Target = Target(key: Key, entry: Entry, sync: SyncStatus)

  /** Where the actor's goroutine stands inside `reconcile`. */
  datatype Phase =
    | Idle
    | Started
    | Removing(todo: set<Target>)
    | Deleting(cur: Target, todo: set<Target>)
    | Adding(todo: set<Target>)
    | Marking(cur: Target, sync: SyncStatus, todo: set<Target>)

  datatype Node = Node(
    entries: set<Entry>,   // users present in the running Xray process
    token: bool,           // the one-slot reconcile channel
    phase: Phase,
    dirty: bool,           // a pass aborted, or the node or the service restarted, since the last removals read
    missed: bool,          // since the last removals read a lookup failed, or a row came to be (un)wanted untold
    orphans: set<Entry>,   // entries whose row was cascaded away by a user deletion
    skipped: bool,         // the latest pass gave up before its removals read, or the service restarted since
    asked: nat,            // newest database write any delivered trigger stands for
    remRead: nat,          // database version of the last removals read
    desRead: nat)          // database version of the last desired read

  /** A service request or sweep that has not yet delivered all its triggers. */
  datatype Op =
    | Lookup(user: Id, at: nat)
    | Fire(nodes: set<Id>, at: nat)
    | Replace(user: Id, inbounds: set<Id>, nodes: set<Id>)
    | Tombstone(user: Id, nodes: set<Id>)
    | Drop(user: Id, nodes: set<Id>, at: nat)
    | Rewrite(user: Id, seen: User)

  datatype State = State(
    users: map<Id, User>,
    inbounds: map<Id, Inbound>,
    rows: map<Key, SyncStatus>,
    nodes: map<Id, Node>,
    ops: multiset<Op>,
    issued: set<Id>,
    clock: nat)

  /** One statement or trigger of a service request or sweep. */
  datatype Request =
    | Create(user: Id, record: User, inbounds: set<Id>)
    | WriteUsers(users: map<Id, User>, notified: set<Id>)
    | FindTargets(op: Op)
    | FailTargets(op: Op)
    | Trigger(op: Op, node: Id)
    | ReadOldTargets(user: Id, inbounds: set<Id>, ok: bool)
    | CommitReplace(op: Op)
    | ReadDeleteTargets(user: Id)
    | CommitTombstone(op: Op)
    | CommitDrop(op: Op)
    | ReadRecord(user: Id)
    | CommitRewrite(op: Op)
    | GiveUp(op: Op)

  /** One step of a node's actor; `ok` is the reported outcome, `hit` whether a failed RPC took effect anyway. */
  datatype Step =
    | Begin(byToken: bool)
    | ReadRemovals
    | Remove(target: Target, ok: bool, hit: bool)
    | DeleteRow(ok: bool)
    | ReadDesired
    | Add(target: Target, ok: bool, hit: bool)
    | Mark(ok: bool)
    | Finish
    | Abort

  datatype Action = Serve(request: Request) | Act(node: Id, step: Step) | RestartNode(node: Id) | RestartService

  // ---------------------------------------------------------------- queries

  /** Foreign keys of the schema. */
  ghost predicate Referential(s: State) {
    && (forall k :: k in s.rows ==> k.user in s.users && k.inbound in s.inbounds)
    && (forall i :: i in s.inbounds ==> s.inbounds[i].node in s.nodes)
    && s.users.Keys <= s.issued
  }

  /** UNIQUE (email) and UNIQUE (node_id, tag). */
  ghost predicate Unique(s: State) {
    && UniqueEmails(s.users)
    && (forall i, j :: i in s.inbounds && j in s.inbounds && s.inbounds[i] == s.inbounds[j] ==> i == j)
  }

  predicate OnNode(s: State, k: Key, n: Id) {
    k in s.rows && k.inbound in s.inbounds && k.user in s.users && s.inbounds[k.inbound].node == n
  }

  function EntryOf(s: State, k: Key): Entry
    requires k.inbound in s.inbounds && k.user in s.users
  {
    Entry(s.inbounds[k.inbound].tag, s.users[k.user].email)
  }

  /** The row asks for presence: live assignment of an active user. */
  predicate Wanted(s: State, k: Key)
    requires k in s.rows && k.user in s.users
  {
    s.rows[k] != SyncStatus.Removing && s.users[k.user].status == Active
  }

  function TargetOf(s: State, k: Key): Target
    requires k in s.rows && k.inbound in s.inbounds && k.user in s.users
  {
    Target(k, EntryOf(s, k), s.rows[k])
  }

  /** DesiredForNode. */
  function DesiredTargets(s: State, n: Id): set<Target> {
    set k | k in s.rows && OnNode(s, k, n) && Wanted(s, k) :: TargetOf(s, k)
  }

  /** RemovalsForNode. */
  function RemovalTargets(s: State, n: Id): set<Target> {
    set k | k in s.rows && OnNode(s, k, n) && !Wanted(s, k) :: TargetOf(s, k)
  }

  /** AssignmentTargetsForUser, reduced to the distinct nodes it names. */
  function NodesOf(s: State, u: Id): set<Id> {
    set k | k in s.rows && k.user == u && k.inbound in s.inbounds :: s.inbounds[k.inbound].node
  }

  function NodesOfInbounds(s: State, inbounds: set<Id>): set<Id> {
    set i | i in inbounds && i in s.inbounds :: s.inbounds[i].node
  }

  /** The entries the database asks node `n` to hold. */
  function Desired(s: State, n: Id): set<Entry> {
    set k | k in s.rows && OnNode(s, k, n) && Wanted(s, k) :: EntryOf(s, k)
  }

  /** Every entry is accounted for by a row, or left behind by a deletion. */
  ghost predicate Tracked(s: State, n: Id)
    requires n in s.nodes
  {
    forall e :: e in s.nodes[n].entries ==> e in s.nodes[n].orphans || HasRow(s, n, e)
  }

  ghost predicate HasRow(s: State, n: Id, e: Entry) {
    exists k :: k in s.rows && OnNode(s, k, n) && EntryOf(s, k) == e
  }

  // ---------------------------------------------------------------- writes

  function KeysFor(u: Id, inbounds: set<Id>): set<Key> { set i | i in inbounds :: Key(u, i) }

  /** SetAssignmentsForUserTx: tombstone what is not listed, insert what is missing. */
  function ReplacedRows(s: State, u: Id, inbounds: set<Id>): map<Key, SyncStatus> {
    map k | k in s.rows.Keys + KeysFor(u, inbounds) ::
      if k in s.rows then
        if k.user == u && k.inbound !in inbounds then SyncStatus.Removing else s.rows[k]
      else Pending
  }

  function TombstonedRows(s: State, u: Id): map<Key, SyncStatus> {
    map k | k in s.rows :: if k.user == u then SyncStatus.Removing else s.rows[k]
  }

  /** Nodes that lose a wanted row of `u` outside `kept` and are not in `told`. */
  predicate LosesUntold(s: State, u: Id, kept: set<Id>, told: set<Id>, n: Id) {
    n !in told && exists k :: k in s.rows && k.user == u && k.inbound !in kept && OnNode(s, k, n) && Wanted(s, k)
  }

  function MissAll(s: State, u: Id, kept: set<Id>, told: set<Id>): map<Id, Node> {
    map n | n in s.nodes ::
      if LosesUntold(s, u, kept, told, n) then s.nodes[n].(missed := true) else s.nodes[n]
  }

  /** Node `n` carries a live row of a user outside `told` whom the new table takes into or out of service. */
  predicate FlipsUntold(s: State, us: map<Id, User>, told: set<Id>, n: Id) {
    exists k :: k in s.rows && OnNode(s, k, n) && k.user in us && k.user !in told && s.rows[k] != SyncStatus.Removing
      && (s.users[k.user].status == Active) != (us[k.user].status == Active)
  }

  function OrphanAll(s: State, u: Id): map<Id, Node> {
    map n | n in s.nodes ::
      var nd := s.nodes[n];
      nd.(orphans := nd.orphans + set k | k in s.rows && k.user == u && OnNode(s, k, n)
                                     && (EntryOf(s, k) in nd.entries || Pushing(nd.phase)) :: EntryOf(s, k))
  }

  predicate Pushing(p: Phase) { p.Adding? || p.Marking? }

  function Put(s: State, n: Id, nd: Node): State { s.(nodes := s.nodes[n := nd]) }

  function Take(s: State, op: Op): multiset<Op> { s.ops - multiset{op} }

  /** The operation once node `n` has been triggered. */
  function Without(op: Op, n: Id): Op {
    match op
    case Fire(ns, at) => Fire(ns - {n}, at)
    case Drop(u, ns, at) => Drop(u, ns - {n}, at)
    case _ => op
  }

  function Max(a: nat, b: nat): nat { if a < b then b else a }

  // ---------------------------------------------------------------- guards

  predicate Allowed(s: State, r: Request) {
    match r
    case Create(u, rec, ibs) =>
      u !in s.issued && rec.status == Active && ibs <= s.inbounds.Keys
      && forall v :: v in s.users ==> s.users[v].email != rec.email
    case WriteUsers(us, told) =>
      us.Keys == s.users.Keys && told <= s.users.Keys && forall u :: u in us ==> us[u].email == s.users[u].email
    case FindTargets(op) => op in s.ops && op.Lookup?
    case FailTargets(op) => op in s.ops && op.Lookup?
    case Trigger(op, n) => op in s.ops && (op.Fire? || op.Drop?) && n in op.nodes && n in s.nodes
    case ReadOldTargets(u, ibs, _) => u in s.users && ibs <= s.inbounds.Keys
    case CommitReplace(op) => op in s.ops && op.Replace? && op.user in s.users && op.inbounds <= s.inbounds.Keys
    case ReadDeleteTargets(u) => true
    case CommitTombstone(op) => op in s.ops && op.Tombstone?
    case CommitDrop(op) => op in s.ops && op.Drop? && op.nodes == {} && op.user in s.users
    case ReadRecord(u) => u in s.users
    case CommitRewrite(op) => op in s.ops && op.Rewrite? && op.user in s.users
    case GiveUp(op) => op in s.ops && (op.Replace? || op.Tombstone? || op.Rewrite? || (op.Drop? && op.nodes == {}))
  }

  predicate Ready(nd: Node, step: Step) {
    match step
    case Begin(byToken) => nd.phase.Idle? && (byToken ==> nd.token)
    case ReadRemovals => nd.phase.Started?
    case Remove(t, _, _) => nd.phase.Removing? && t in nd.phase.todo
    case DeleteRow(_) => nd.phase.Deleting?
    case ReadDesired => nd.phase == Phase.Removing({})
    case Add(t, _, _) => nd.phase.Adding? && t in nd.phase.todo
    case Mark(_) => nd.phase.Marking?
    case Finish => nd.phase == Adding({})
    case Abort => nd.phase.Started? || nd.phase == Phase.Removing({})
  }

  predicate Enabled(s: State, a: Action) {
    match a
    case Serve(r) => Allowed(s, r)
    case Act(n, step) => n in s.nodes && Ready(s.nodes[n], step)
    case RestartNode(n) => n in s.nodes
    case RestartService => true
  }

  // ---------------------------------------------------------------- effects of requests and sweeps

  function DoCreate(s: State, u: Id, r: User, ibs: set<Id>): State {
    s.(users := s.users[u := r],
       rows := s.rows + (map k | k in KeysFor(u, ibs) :: Pending),
       issued := s.issued + {u},
       clock := s.clock + 1,
       ops := s.ops + multiset{Lookup(u, s.clock + 1)})
  }

  /**
   Any statement on the users table that leaves ids and emails alone; the nodes of `told` are looked up afterwards.
   */
  function DoWriteUsers(s: State, us: map<Id, User>, told: set<Id>): State {
    s.(users := us,
       clock := s.clock + 1,
       nodes := map n | n in s.nodes :: if FlipsUntold(s, us, told, n) then s.nodes[n].(missed := true) else s.nodes[n],
       ops := s.ops + multiset(set u | u in told :: Lookup(u, s.clock + 1)))
  }

  /** UpdateUser with a record read earlier, and no trigger afterwards: RotateSubToken. */
  function DoRewrite(s: State, op: Op): State
    requires op.Rewrite? && op.user in s.users
  {
    DoWriteUsers(s.(ops := Take(s, op)), Rewritten(s, op), {})
  }

  function Rewritten(s: State, op: Op): map<Id, User>
    requires op.Rewrite? && op.user in s.users
  {
    s.users[op.user := s.users[op.user].Overwritten(op.seen)]
  }

  function DoFindTargets(s: State, op: Op): State
    requires op.Lookup?
  {
    s.(ops := Take(s, op) + multiset{Fire(NodesOf(s, op.user), op.at)})
  }

  function DoFailTargets(s: State, op: Op): State
    requires op.Lookup?
  {
    s.(ops := Take(s, op),
       nodes := map n | n in s.nodes ::
         if n in NodesOf(s, op.user) then s.nodes[n].(missed := true) else s.nodes[n])
  }

  function DoTrigger(s: State, op: Op, n: Id): State
    requires (op.Fire? || op.Drop?) && n in s.nodes
  {
    Put(s, n, s.nodes[n].(token := true, asked := Max(s.nodes[n].asked, op.at)))
      .(ops := Take(s, op) + multiset{Without(op, n)})
  }

  function Told(s: State, op: Op): set<Id>
    requires op.Replace?
  {
    op.nodes + NodesOfInbounds(s, op.inbounds)
  }

  function DoReplace(s: State, op: Op): State
    requires op.Replace?
  {
    s.(rows := ReplacedRows(s, op.user, op.inbounds),
       clock := s.clock + 1,
       nodes := MissAll(s, op.user, op.inbounds, Told(s, op)),
       ops := Take(s, op) + multiset{Fire(Told(s, op), s.clock + 1)})
  }

  function DoTombstone(s: State, op: Op): State
    requires op.Tombstone?
  {
    s.(rows := TombstonedRows(s, op.user),
       clock := s.clock + 1,
       nodes := MissAll(s, op.user, {}, op.nodes),
       ops := Take(s, op) + multiset{Drop(op.user, op.nodes, s.clock + 1)})
  }

  function DoDrop(s: State, op: Op): State
    requires op.Drop?
  {
    s.(users := s.users - {op.user},
       rows := map k | k in s.rows && k.user != op.user :: s.rows[k],
       clock := s.clock + 1,
       nodes := OrphanAll(s, op.user),
       ops := Take(s, op))
  }

  // ---------------------------------------------------------------- effects of restarts

  function DoRestartNode(s: State, n: Id): State
    requires n in s.nodes
  {
    var nd := s.nodes[n];
    Put(s, n, nd.(entries := {}, dirty := true, orphans := if Pushing(nd.phase) then nd.orphans else {}))
  }

  function DoRestartService(s: State): State {
    s.(ops := multiset{},
       nodes := map n | n in s.nodes :: s.nodes[n].(phase := Idle, token := false, dirty := true, skipped := true))
  }

  // ---------------------------------------------------------------- effects of one actor's steps

  function DoBegin(s: State, n: Id, byToken: bool): State
    requires n in s.nodes
  {
    Put(s, n, s.nodes[n].(phase := Started, token := s.nodes[n].token && !byToken))
  }

  function DoReadRemovals(s: State, n: Id): State
    requires n in s.nodes
  {
    Put(s, n, s.nodes[n].(phase := Phase.Removing(RemovalTargets(s, n)),
                          dirty := false, missed := false, skipped := false, remRead := s.clock))
  }

  function DoRemove(s: State, n: Id, t: Target, ok: bool, hit: bool): State
    requires n in s.nodes && s.nodes[n].phase.Removing?
  {
    var nd := s.nodes[n];
    var nd' := if ok || hit then nd.(entries := nd.entries - {t.entry}, orphans := nd.orphans - {t.entry}) else nd;
    var rest := nd.phase.todo - {t};
    Put(s, n,
        if !ok then nd'.(phase := Idle, dirty := true)
        else if t.sync == SyncStatus.Removing then nd'.(phase := Deleting(t, rest))
        else nd'.(phase := Phase.Removing(rest)))
  }

  function DoDeleteRow(s: State, n: Id, ok: bool): State
    requires n in s.nodes && s.nodes[n].phase.Deleting?
  {
    var nd := s.nodes[n];
    Put(s, n, nd.(phase := Phase.Removing(nd.phase.todo)))
      .(rows := if ok then s.rows - {nd.phase.cur.key} else s.rows)
  }

  function DoReadDesired(s: State, n: Id): State
    requires n in s.nodes
  {
    Put(s, n, s.nodes[n].(phase := Adding(DesiredTargets(s, n)), desRead := s.clock))
  }

  function DoAdd(s: State, n: Id, t: Target, ok: bool, hit: bool): State
    requires n in s.nodes && s.nodes[n].phase.Adding?
  {
    var nd := s.nodes[n];
    var nd' := if ok || hit then nd.(entries := nd.entries + {t.entry}) else nd;
    var rest := nd.phase.todo - {t};
    Put(s, n,
        if !ok then nd'.(phase := Marking(t, SyncStatus.Failed, {}), dirty := true)
        else if t.sync != Applied then nd'.(phase := Marking(t, Applied, rest))
        else nd'.(phase := Adding(rest)))
  }

  function DoMark(s: State, n: Id, ok: bool): State
    requires n in s.nodes && s.nodes[n].phase.Marking?
  {
    var nd := s.nodes[n];
    var p := nd.phase;
    Put(s, n, nd.(phase := if p.sync == Applied then Adding(p.todo) else Idle))
      .(rows := if ok && p.cur.key in s.rows then s.rows[p.cur.key := p.sync] else s.rows)
  }

  function DoFinish(s: State, n: Id): State
    requires n in s.nodes
  {
    Put(s, n, s.nodes[n].(phase := Idle))
  }

  function DoAbort(s: State, n: Id): State
    requires n in s.nodes
  {
    var nd := s.nodes[n];
    Put(s, n, nd.(phase := Idle, dirty := true, skipped := nd.skipped || nd.phase.Started?))
  }

  function Served(s: State, r: Request): (s': State)
    requires Allowed(s, r)
    ensures s'.nodes.Keys == s.nodes.Keys && s'.inbounds == s.inbounds
  {
    match r
    case Create(u, rec, ibs) => DoCreate(s, u, rec, ibs)
    case WriteUsers(us, told) => DoWriteUsers(s, us, told)
    case FindTargets(op) => DoFindTargets(s, op)
    case FailTargets(op) => DoFailTargets(s, op)
    case Trigger(op, n) => DoTrigger(s, op, n)
    case ReadOldTargets(u, ibs, ok) => s.(ops := s.ops + multiset{Replace(u, ibs, if ok then NodesOf(s, u) else {})})
    case CommitReplace(op) => DoReplace(s, op)
    case ReadDeleteTargets(u) => s.(ops := s.ops + multiset{Tombstone(u, NodesOf(s, u))})
    case CommitTombstone(op) => DoTombstone(s, op)
    case CommitDrop(op) => DoDrop(s, op)
    case ReadRecord(u) => s.(ops := s.ops + multiset{Rewrite(u, s.users[u])})
    case CommitRewrite(op) => DoRewrite(s, op)
    case GiveUp(op) => s.(ops := Take(s, op))
  }

  function Acted(s: State, n: Id, step: Step): (s': State)
    requires n in s.nodes && Ready(s.nodes[n], step)
    ensures s'.nodes.Keys == s.nodes.Keys && s'.(nodes := s.nodes, rows := s.rows) == s
  {
    match step
    case Begin(byToken) => DoBegin(s, n, byToken)
    case ReadRemovals => DoReadRemovals(s, n)
    case Remove(t, ok, hit) => DoRemove(s, n, t, ok, hit)
    case DeleteRow(ok) => DoDeleteRow(s, n, ok)
    case ReadDesired => DoReadDesired(s, n)
    case Add(t, ok, hit) => DoAdd(s, n, t, ok, hit)
    case Mark(ok) => DoMark(s, n, ok)
    case Finish => DoFinish(s, n)
    case Abort => DoAbort(s, n)
  }

  function Apply(s: State, a: Action): (s': State)
    requires Enabled(s, a)
    ensures s'.nodes.Keys == s.nodes.Keys && s'.inbounds == s.inbounds
  {
    match a
    case Serve(r) => Served(s, r)
    case Act(n, step) => Acted(s, n, step)
    case RestartNode(n) => DoRestartNode(s, n)
    case RestartService => DoRestartService(s)
  }

  // ---------------------------------------------------------------- runs

  /** Database and nodes in any shape the schema allows; nothing in flight, nothing trusted. */
  ghost predicate Init(s: State) {
    && Referential(s) && Unique(s) && s.ops == multiset{}
    && forall n :: n in s.nodes ==>
         var nd := s.nodes[n];
         nd.phase.Idle? && !nd.token && nd.dirty && Tracked(s, n) && nd.asked == nd.remRead == nd.desRead == 0
  }

  /** Where the run `actions` leads from `s`; None if an action is taken where it is not enabled. */
  function Reach(s: State, actions: seq<Action>): Option<State>
    decreases |actions|
  {
    if actions == [] then Some(s)
    else
      var last := |actions| - 1;
      match Reach(s, actions[..last])
      case None => None
      case Some(t) => if Enabled(t, actions[last]) then Some(Apply(t, actions[last])) else None
  }

  /** A run can be continued by any action enabled where it ends. */
  lemma ReachMore(s: State, actions: seq<Action>, t: State, a: Action)
    requires Reach(s, actions) == Some(t) && Enabled(t, a)
    ensures Reach(s, actions + [a]) == Some(Apply(t, a))
  {
    assert (actions + [a])[..|actions|] == actions;
  }

  ghost predicate Hop(s: State, a: Action, s': State) { Enabled(s, a) && Apply(s, a) == s' }

  lemma TwoHops(s0: State, actions: seq<Action>, s: State, a: Action, s1: State, b: Action, s2: State)
    requires Reach(s0, actions) == Some(s) && Hop(s, a, s1) && Hop(s1, b, s2)
    ensures Reach(s0, actions + [a] + [b]) == Some(s2)
  {
    ReachMore(s0, actions, s, a);
    ReachMore(s0, actions + [a], s1, b);
  }
}
