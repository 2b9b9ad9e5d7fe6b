/** The lock on the automation script, its revision check and the clients that hold it: what
    each message does, and what no sequence of messages can break. */
module EditLock {
  import opened Options

  const MAXIMUM_SCRIPT := 256 * 1024

  datatype Problem = BadRequest | Busy | NotHolder | Unreadable | Changed | NotSaved

  datatype Envelope =
    | EditDenied(id: nat, problem: Problem)
    | EditGranted(id: nat, script: string, revision: nat)
    | SaveDenied(id: nat, problem: Problem)
    | SaveDone(id: nat, revision: nat)
    | Released(ok: bool)
    | AutomationState(editorBusy: bool, enabled: bool, revision: nat)
    | Plain(text: string)

  /** The messages of a client; `None` stands for a missing or malformed field.  `Notify`
      is every message after which the server only announces the state of the automation,
      `Ask` one that is only answered, `Silent` one that is neither, such as a refresh or a
      control command that is queued. */
  datatype Request =
    | EditBegin(id: Option<nat>)
    | EditSave(id: Option<nat>, revision: Option<nat>, script: Option<string>, enabled: Option<bool>)
    | EditCancel
    | Notify
    | Ask(answer: Envelope)
    | Silent

  /** What the script check and the file system do during a save: the check passes, the
      script is written, the state is written, the old script is written back, the new
      script loads. */
  datatype Environment = Environment(valid: bool, written: bool, persisted: bool, restored: bool, loads: bool)

  /** A save that took effect: who asked, who held the lock, and the revision it quoted. */
  datatype Save = Save(client: nat, holder: nat, quoted: nat, script: string)

  /** `editor` is 0 when nobody edits; `script` is `None` when the file cannot be read. */
  datatype Lock = Lock(
    clients: set<nat>,
    editor: nat,
    revision: nat,
    script: Option<string>,
    enabled: bool,
    saves: seq<Save>)

  /** Clients disconnect; the lock is freed if its holder is among them. */
  function Drop(l: Lock, gone: set<nat>): Lock {
    l.(clients := l.clients - gone, editor := if l.editor in gone then 0 else l.editor)
  }

  predicate Complete(request: Request) {
    request.EditSave? && request.id.Some? && request.revision.Some? && request.script.Some? && request.enabled.Some?
  }

  /** The save is complete, comes from the holder and quotes the current revision. */
  predicate Admitted(l: Lock, client: nat, request: Request) {
    Complete(request) && l.editor == client && request.revision.value == l.revision
  }

  /** The save changes the revision. */
  predicate TakesEffect(request: Request, env: Environment)
    requires Complete(request)
  {
    |request.script.value| <= MAXIMUM_SCRIPT && env.valid && env.written && env.persisted
  }

  /** The save is answered as done. */
  predicate Succeeds(request: Request, env: Environment)
    requires Complete(request)
  {
    TakesEffect(request, env) && (request.enabled.value ==> env.loads)
  }

  /** The automation after an attempt to save; a script that could not be recorded in the
      state is taken back if there was one before and it can be written again. */
  function AfterSave(l: Lock, client: nat, request: Request, env: Environment): Lock
    requires Complete(request)
  {
    var text := request.script.value;
    if TakesEffect(request, env) then
      l.(script := request.script, enabled := request.enabled.value, revision := l.revision + 1,
         saves := l.saves + [Save(client, l.editor, request.revision.value, text)])
    else if |text| <= MAXIMUM_SCRIPT && env.valid && env.written && !(l.script.Some? && env.restored) then
      l.(script := request.script)
    else l
  }

  /** The lock after a message, apart from clients that disconnect meanwhile. */
  function Handled(l: Lock, client: nat, request: Request, env: Environment): Lock {
    match request
    case EditBegin(id) =>
      if id.Some? && (l.editor == 0 || l.editor == client) && l.script.Some? then l.(editor := client) else l
    case EditSave(_, _, _, _) =>
      if !Admitted(l, client, request) then l
      else if Succeeds(request, env) then AfterSave(l, client, request, env).(editor := 0)
      else AfterSave(l, client, request, env)
    case EditCancel => if l.editor == client then l.(editor := 0) else l
    case _ => l
  }

  function IdOf(id: Option<nat>): nat {
    if id.Some? then id.value else 0
  }

  /** What the client is told. */
  function Answer(l: Lock, client: nat, request: Request, env: Environment): Option<Envelope> {
    match request
    case EditBegin(id) =>
      Some(if id.None? then EditDenied(0, BadRequest)
           else if l.editor != 0 && l.editor != client then EditDenied(id.value, Busy)
           else if l.script.None? then EditDenied(id.value, Unreadable)
           else EditGranted(id.value, l.script.value, l.revision))
    case EditSave(id, revision, _, _) =>
      Some(if !Complete(request) || l.editor != client
           then SaveDenied(IdOf(id), if l.editor == client then BadRequest else NotHolder)
           else if revision.value != l.revision then SaveDenied(id.value, Changed)
           else if !Succeeds(request, env) then SaveDenied(id.value, NotSaved)
           else SaveDone(id.value, l.revision + 1))
    case EditCancel => Some(Released(l.editor == client))
    case Notify => None
    case Silent => None
    case Ask(answer) => Some(answer)
  }

  // ----- Every sequence of messages

  /** What can happen to the lock; a message comes from a connected client, and any clients
      may be disconnected while it is handled. */
  datatype Happening =
    | Joined(client: nat)
    | Left(gone: set<nat>)
    | Message(client: nat, request: Request, env: Environment, gone: set<nat>)

  predicate CanHappen(l: Lock, happening: Happening) {
    match happening
    case Joined(client) => client > 0
    case Left(_) => true
    case Message(client, _, _, _) => client in l.clients
  }

  function Happens(l: Lock, happening: Happening): Lock {
    match happening
    case Joined(client) => l.(clients := l.clients + {client})
    case Left(gone) => Drop(l, gone)
    case Message(client, request, env, gone) => Drop(Handled(l, client, request, env), gone)
  }

  function AllHappen(l: Lock, happenings: seq<Happening>): Option<Lock>
    decreases |happenings|
  {
    if happenings == [] then Some(l)
    else if CanHappen(l, happenings[0]) then AllHappen(Happens(l, happenings[0]), happenings[1..])
    else None
  }

  /** The lock is free or held by a connected client; the saves quote ascending revisions
      below the current one, and each was asked for by the holder. */
  predicate Sound(l: Lock) {
    && 0 !in l.clients
    && (l.editor == 0 || l.editor in l.clients)
    && (forall i | 0 <= i < |l.saves| :: l.saves[i].quoted < l.revision && l.saves[i].client == l.saves[i].holder)
    && (forall i, j | 0 <= i < j < |l.saves| :: l.saves[i].quoted < l.saves[j].quoted)
  }

  lemma HandledStaysSound(l: Lock, client: nat, request: Request, env: Environment)
    requires Sound(l) && client in l.clients
    ensures Sound(Handled(l, client, request, env))
  {}

  lemma {:induction false} SoundForever(l: Lock, happenings: seq<Happening>)
    requires Sound(l) && AllHappen(l, happenings).Some?
    ensures Sound(AllHappen(l, happenings).value)
    ensures l.saves <= AllHappen(l, happenings).value.saves
    decreases |happenings|
  {
    if happenings != [] {
      var next := Happens(l, happenings[0]);
      match happenings[0] {
        case Message(client, request, env, _) => HandledStaysSound(l, client, request, env);
        case _ =>
      }
      assert Sound(next) && l.saves <= next.saves;
      SoundForever(next, happenings[1..]);
    }
  }

  /** Whatever clients send and whenever they disconnect: the lock is free or held by a
      connected client, and of all saves that quote the same revision at most one took
      effect, asked for by the holder of the lock. */
  lemma OneSavePerRevision(clients: set<nat>, script: Option<string>, enabled: bool, revision: nat,
                           happenings: seq<Happening>)
    requires 0 !in clients
    requires AllHappen(Lock(clients, 0, revision, script, enabled, []), happenings).Some?
    ensures var l := AllHappen(Lock(clients, 0, revision, script, enabled, []), happenings).value;
            && (l.editor == 0 || l.editor in l.clients)
            && (forall i | 0 <= i < |l.saves| :: l.saves[i].client == l.saves[i].holder)
            && forall i, j | 0 <= i < |l.saves| && 0 <= j < |l.saves| && l.saves[i].quoted == l.saves[j].quoted ::
               i == j
  {
    SoundForever(Lock(clients, 0, revision, script, enabled, []), happenings);
  }

  /** A save took effect exactly when it changed the revision, and by one. */
  lemma EffectChangesRevision(l: Lock, client: nat, request: Request, env: Environment)
    ensures var next := Handled(l, client, request, env);
            && next.revision == l.revision + |next.saves| - |l.saves|
            && (next.revision != l.revision <==> Admitted(l, client, request) && TakesEffect(request, env))
            && (next.revision != l.revision ==>
                  && next.script == request.script && Some(next.enabled) == request.enabled
                  && next.saves == l.saves + [Save(client, l.editor, l.revision, request.script.value)])
            && (next.revision == l.revision ==> next.enabled == l.enabled && next.saves == l.saves)
  {}

  /** A save answered as failed leaves the lock with its holder, but the holder can correct
      the script and save again with the same revision exactly when the failure came before
      the revision changed; not when only the loading failed. */
  lemma CorrectionAdmitted(l: Lock, client: nat, request: Request, env: Environment, correction: Request)
    requires Admitted(l, client, request) && !Succeeds(request, env)
    requires Complete(correction) && correction.revision == request.revision
    ensures var next := Handled(l, client, request, env);
            next.editor == client && (Admitted(next, client, correction) <==> !TakesEffect(request, env))
  {}

  /** The script on disk is that of the last save that took effect. */
  predicate LastSaveStands(l: Lock, initial: string) {
    l.script == Some(if l.saves == [] then initial else l.saves[|l.saves| - 1].script)
  }

  /** A message leaves another script behind exactly if a save was written but neither recorded
      in the state nor taken back. */
  lemma ScriptExactly(l: Lock, client: nat, request: Request, env: Environment, initial: string)
    requires LastSaveStands(l, initial)
    ensures LastSaveStands(Handled(l, client, request, env), initial) <==>
            !Admitted(l, client, request) || request.script == l.script || env.persisted || env.restored ||
            !(env.valid && env.written && |request.script.value| <= MAXIMUM_SCRIPT)
  {}

  /** If every save that cannot be recorded is taken back, the last save always stands. */
  lemma {:induction false} LastSaveStandsForever(l: Lock, happenings: seq<Happening>, initial: string)
    requires LastSaveStands(l, initial) && AllHappen(l, happenings).Some?
    requires forall i | 0 <= i < |happenings| && happenings[i].Message? ::
             happenings[i].env.persisted || happenings[i].env.restored
    ensures LastSaveStands(AllHappen(l, happenings).value, initial)
    decreases |happenings|
  {
    if happenings != [] {
      if happenings[0].Message? {
        ScriptExactly(l, happenings[0].client, happenings[0].request, happenings[0].env, initial);
      }
      LastSaveStandsForever(Happens(l, happenings[0]), happenings[1..], initial);
    }
  }

  /** Who is granted the lock holds it until a save or a cancellation of its own, or until it
      disconnects; nobody else gets it meanwhile. */
  lemma {:induction false} HolderKeepsLock(l: Lock, happenings: seq<Happening>)
    requires Sound(l) && l.editor != 0 && AllHappen(l, happenings).Some?
    requires forall i | 0 <= i < |happenings| :: !Ends(l.editor, happenings[i])
    ensures AllHappen(l, happenings).value.editor == l.editor
    decreases |happenings|
  {
    if happenings != [] {
      assert Happens(l, happenings[0]).editor == l.editor;
      if happenings[0].Message? {
        HandledStaysSound(l, happenings[0].client, happenings[0].request, happenings[0].env);
      }
      HolderKeepsLock(Happens(l, happenings[0]), happenings[1..]);
    }
  }

  /** The holder saves successfully, cancels or disconnects. */
  predicate Ends(holder: nat, happening: Happening) {
    match happening
    case Joined(_) => false
    case Left(gone) => holder in gone
    case Message(client, request, env, gone) =>
      holder in gone || (client == holder && (request.EditCancel? || (Complete(request) && Succeeds(request, env))))
  }

  // ----- What an editor is told

  /** Beginning to edit is granted exactly with a proper id, a script that can be read, and the
      lock free or the client's own; and then the client is told the id it gave, the script
      as it is and the revision as it is, and holds the lock. */
  lemma GrantedExactly(l: Lock, client: nat, id: Option<nat>, env: Environment)
    ensures (exists told: nat, text, revision: nat ::
               Answer(l, client, EditBegin(id), env) == Some(EditGranted(told, text, revision))) <==>
            id.Some? && l.script.Some? && (l.editor == 0 || l.editor == client)
    ensures forall told: nat, text, revision: nat |
              Answer(l, client, EditBegin(id), env) == Some(EditGranted(told, text, revision)) ::
              var next := Handled(l, client, EditBegin(id), env);
              && next.editor == client && id == Some(told)
              && next.script == Some(text) && next.revision == revision
  {
    if id.Some? && l.script.Some? && (l.editor == 0 || l.editor == client) {
      assert Answer(l, client, EditBegin(id), env) == Some(EditGranted(id.value, l.script.value, l.revision));
    }
  }

  /** The client asks to save. */
  predicate Saves(client: nat, happening: Happening) {
    happening.Message? && happening.client == client && happening.request.EditSave?
  }

  /** While the holder neither ends its hold nor saves, nothing changes script and revision. */
  lemma {:induction false} HeldUnchanged(l: Lock, happenings: seq<Happening>)
    requires Sound(l) && l.editor != 0 && AllHappen(l, happenings).Some?
    requires forall i | 0 <= i < |happenings| :: !Ends(l.editor, happenings[i]) && !Saves(l.editor, happenings[i])
    ensures var end := AllHappen(l, happenings).value;
            && end.editor == l.editor && end.revision == l.revision && end.script == l.script
            && end.enabled == l.enabled && end.saves == l.saves
    decreases |happenings|
  {
    if happenings != [] {
      var next := Happens(l, happenings[0]);
      if happenings[0].Message? {
        HandledStaysSound(l, happenings[0].client, happenings[0].request, happenings[0].env);
      }
      assert next.editor == l.editor && next.revision == l.revision && next.script == l.script;
      HeldUnchanged(next, happenings[1..]);
    }
  }

  /** The revision handed to the editor admits its saves, and the script handed to it is that
      of the last save that took effect: until it saves or gives up the lock, whatever
      others do, every complete save that quotes the revision is admitted. */
  lemma GrantAdmitsSave(l: Lock, client: nat, id: Option<nat>, env: Environment, told: nat, text: string,
                        revision: nat, happenings: seq<Happening>, save: Request, initial: string)
    requires Sound(l) && client in l.clients
    requires Answer(l, client, EditBegin(id), env) == Some(EditGranted(told, text, revision))
    requires AllHappen(Handled(l, client, EditBegin(id), env), happenings).Some?
    requires forall i | 0 <= i < |happenings| :: !Ends(client, happenings[i]) && !Saves(client, happenings[i])
    requires Complete(save) && save.revision == Some(revision)
    ensures var end := AllHappen(Handled(l, client, EditBegin(id), env), happenings).value;
            && Admitted(end, client, save) && end.script == Some(text)
            && (LastSaveStands(l, initial) ==>
                  text == if end.saves == [] then initial else end.saves[|end.saves| - 1].script)
  {
    GrantedExactly(l, client, id, env);
    HandledStaysSound(l, client, EditBegin(id), env);
    HeldUnchanged(Handled(l, client, EditBegin(id), env), happenings);
  }

  /** A save is answered as done exactly if the holder quoted the current revision in a complete
      request and the script was checked, written, recorded and, if enabled, loaded; the
      client is then told its id and the new revision, which any editor is granted next. */
  lemma SaveDoneExactly(l: Lock, client: nat, request: Request, env: Environment)
    requires request.EditSave?
    ensures (exists told: nat, revision: nat ::
               Answer(l, client, request, env) == Some(SaveDone(told, revision))) <==>
            && request.id.Some? && request.revision.Some? && request.script.Some? && request.enabled.Some?
            && l.editor == client && request.revision.value == l.revision
            && |request.script.value| <= 256 * 1024 && env.valid && env.written && env.persisted
            && (request.enabled.value ==> env.loads)
    ensures forall told: nat, revision: nat | Answer(l, client, request, env) == Some(SaveDone(told, revision)) ::
              var next := Handled(l, client, request, env);
              && Some(told) == request.id && revision == next.revision == l.revision + 1
              && next.editor == 0 && next.script == request.script && Some(next.enabled) == request.enabled
              && forall other: nat, id: nat, env' | other != 0 ::
                   Answer(next, other, EditBegin(Some(id)), env') ==
                   Some(EditGranted(id, request.script.value, revision))
  {
    if Complete(request) && Admitted(l, client, request) && Succeeds(request, env) {
      assert Answer(l, client, request, env) == Some(SaveDone(request.id.value, l.revision + 1));
    }
  }

  /** Cancelling frees the lock exactly if the client holds it, changes nothing else, and the
      client is told which it was. */
  lemma CancelExactly(l: Lock, client: nat, env: Environment)
    ensures Handled(l, client, EditCancel, env) == if l.editor == client then l.(editor := 0) else l
    ensures Answer(l, client, EditCancel, env) == Some(Released(l.editor == client))
  {}
}
