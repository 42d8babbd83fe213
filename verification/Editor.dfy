/** The browser editor's save protocol: a client with lost replies against a compare-and-set server. */
module Editor {
  import opened Bytes

  // ---------------------------------------------------------------- line endings

  const CR: byte := 13
  const LF: byte := 10

  /** What the text area makes of a file: every line break becomes LF. */
  function Normalize(s: bytes): (t: bytes)
    ensures CR !in t
  {
    if s == [] then []
    else if s[0] == CR then
      if |s| > 1 && s[1] == LF then [LF] + Normalize(s[2..]) else [LF] + Normalize(s[1..])
    else [s[0]] + Normalize(s[1..])
  }

  /** What the client sends: every LF in the file's own convention. */
  function Expand(t: bytes, crlf: bool): bytes {
    if t == [] then []
    else if t[0] == LF && crlf then [CR, LF] + Expand(t[1..], crlf)
    else [t[0]] + Expand(t[1..], crlf)
  }

  predicate HasCrlf(s: bytes) {
    exists i :: 0 <= i < |s| - 1 && s[i] == CR && s[i + 1] == LF
  }

  /** All line breaks of one kind. */
  predicate Uniform(s: bytes, crlf: bool) {
    if s == [] then true
    else if s[0] == CR then crlf && |s| > 1 && s[1] == LF && Uniform(s[2..], crlf)
    else (s[0] == LF ==> !crlf) && Uniform(s[1..], crlf)
  }

  /** Sending loses nothing of the draft. */
  lemma {:induction false} NormalizeExpand(t: bytes, crlf: bool)
    requires CR !in t
    ensures Normalize(Expand(t, crlf)) == t
  {
    if t != [] {
      assert t[0] in t && forall c | c in t[1..] :: c in t;
      NormalizeExpand(t[1..], crlf);
      var e := Expand(t, crlf);
      assert t == [t[0]] + t[1..];
      if t[0] == LF && crlf {
        assert e[2..] == Expand(t[1..], crlf);
      } else {
        assert e[1..] == Expand(t[1..], crlf);
      }
    }
  }

  /**
   * Saving an untouched draft would reproduce the file byte for byte exactly when its line breaks are
   * all of the kind the editor chose for it; a file that mixes them is rewritten by its first save.
   */
  lemma {:induction false} RoundTripsWhenUniform(s: bytes, crlf: bool)
    ensures Expand(Normalize(s), crlf) == s <==> Uniform(s, crlf)
  {
    var n := Normalize(s);
    if s == [] {
    } else if s[0] == CR && |s| > 1 && s[1] == LF {
      RoundTripsWhenUniform(s[2..], crlf);
      assert n[1..] == Normalize(s[2..]);
      assert s == [CR, LF] + s[2..];
    } else if s[0] == CR {
      assert n[0] == LF && n[1..] == Normalize(s[1..]);
      assert Expand(n, crlf) == if crlf then [CR, LF] + Expand(n[1..], crlf) else [LF] + Expand(n[1..], crlf);
    } else {
      RoundTripsWhenUniform(s[1..], crlf);
      assert n[1..] == Normalize(s[1..]);
      assert s == [s[0]] + s[1..];
    }
  }

  /** A mixed file: the editor sees CRLF, and the plain LF does not come back. */
  lemma MixedFileChanges()
    ensures var s := [CR, LF, LF]; HasCrlf(s) && Expand(Normalize(s), HasCrlf(s)) != s
  {
    var s := [CR, LF, LF];
    assert s[0] == CR && s[0 + 1] == LF;
    assert HasCrlf(s);
    assert s[2..] == [LF];
    assert !Uniform(s[2..], true);
    RoundTripsWhenUniform(s, true);
  }

  // ---------------------------------------------------------------- state

  datatype Phase = Hashing | Sent(request: nat)

  datatype Save = Save(text: bytes, code: bytes, base: nat, generation: nat, phase: Phase)
  datatype Draft = Draft(text: bytes, code: bytes, base: nat)

  /** The closure variables of the controller. */
  datatype Client = Client(
    entry: Option<nat>,           // revision held
    savedText: bytes,
    value: bytes,                 // the text area
    crlf: bool,
    saving: Option<Save>,
    unconfirmed: Option<Draft>,
    saveError: bool,
    editAllowed: bool,
    generation: nat,
    aborted: bool,
    opening: Option<nat>)

  datatype Request = Request(base: nat, code: bytes)

  /** One path of the store: its live contents by revision, and the current live revision if any. */
  datatype Server = Server(contents: map<nat, bytes>, current: Option<nat>, generation: nat)

  datatype State = State(
    client: Client,
    server: Server,
    wire: set<nat>,                    // requests sent and not yet processed
    replies: map<nat, Option<nat>>,    // accepted with a revision, or refused
    requests: map<nat, Request>,       // history: every save request sent
    recorded: set<nat>)                // history: every revision the editor has held

  predicate Dirty(c: Client) {
    c.entry.Some? && c.value != c.savedText
  }

  datatype Event =
    | Edit(text: bytes)
    | Allow
    | PersistBegin
    | PersistSend(request: nat)
    | PersistReply
    | PersistFail
    | Take(request: nat, revision: nat)
    | OtherWrite(revision: nat, content: Option<bytes>)
    | Lock
    | OpenBegin
    | OpenLoaded(revision: nat)
    | OpenEnd
    | RetryLoaded(revision: nat)
    | RetryFail

  predicate Enabled(s: State, e: Event) {
    var c := s.client;
    match e
    case Edit(text) => CR !in text
    case Allow => true
    case PersistBegin => c.saving.None? && Dirty(c) && !c.saveError && c.editAllowed
    case PersistSend(n) => c.saving.Some? && c.saving.value.phase.Hashing? && n !in s.requests
    case PersistReply =>
      c.saving.Some? && c.saving.value.phase.Sent? && c.saving.value.phase.request in s.replies
      && s.replies[c.saving.value.phase.request].Some?
    case PersistFail => c.saving.Some?
    case Take(n, revision) => n in s.wire && n in s.requests && revision > s.server.generation
    case OtherWrite(revision, content) => revision > s.server.generation
    case Lock => true
    case OpenBegin => c.opening.None? && (c.entry.None? || c.aborted)
    case OpenLoaded(revision) => c.opening.Some? && revision in s.server.contents
    case OpenEnd => c.opening.Some?
    case RetryLoaded(revision) => c.entry.Some? && revision in s.server.contents
    case RetryFail => true
  }

  // ---------------------------------------------------------------- the handlers between two awaits

  function Begun(c: Client): Client
    requires c.entry.Some?
  {
    c.(saving := Some(Save(c.value, Expand(c.value, c.crlf), c.entry.value, c.generation, Hashing)))
  }

  /** A reply that arrives after a lock or reopen is ignored. */
  function Replied(c: Client, revision: nat): Client
    requires c.saving.Some?
  {
    var save := c.saving.value;
    if save.generation != c.generation then c.(saving := None)
    else if revision <= save.base then c.(saving := None, saveError := true)
    else c.(entry := Some(revision), savedText := save.text, unconfirmed := None, saving := None)
  }

  function Failed(c: Client): Client
    requires c.saving.Some?
  {
    c.(saving := None, saveError := c.saveError || c.saving.value.generation == c.generation)
  }

  function Locked(c: Client): Client {
    var l := c.(generation := c.generation + 1, aborted := true, editAllowed := false);
    if Dirty(c) then l.(saveError := true) else l.(entry := None, value := [], savedText := [])
  }

  /** A stale load, or one that finds an unsaved draft, changes nothing. */
  function Loaded(c: Client, revision: nat, content: bytes): Client
    requires c.opening.Some?
  {
    if c.opening.value != c.generation || Dirty(c) then c
    else
      var text := Normalize(content);
      c.(entry := Some(revision), crlf := HasCrlf(content), value := text, savedText := text, saveError := false)
  }

  /** The retry handler reconciles a lost acknowledgement, and refuses to overwrite anything else. */
  function Reconciled(c: Client, revision: nat, content: bytes): Client
    requires c.entry.Some?
  {
    if revision == c.entry.value then c.(saveError := false)
    else if content == Expand(c.value, c.crlf) then
      c.(savedText := c.value, entry := Some(revision), unconfirmed := None, saveError := false)
    else if c.unconfirmed.Some? && content == c.unconfirmed.value.code && revision > c.unconfirmed.value.base then
      c.(savedText := c.unconfirmed.value.text, entry := Some(revision), unconfirmed := None, saveError := false)
    else c.(saveError := true)
  }

  /** `save` on the server: only on top of the live version the request names. */
  predicate ServerAccepts(v: Server, q: Request) {
    q.base > 0 && v.current == Some(q.base)
  }

  function Next(s: State, e: Event): State
    requires Enabled(s, e)
  {
    var c := s.client;
    match e
    case Edit(text) => s.(client := c.(value := text))
    case Allow => s.(client := c.(editAllowed := true))
    case PersistBegin => s.(client := Begun(c))
    case PersistSend(n) =>
      var save := c.saving.value;
      s.(client := c.(unconfirmed := Some(Draft(save.text, save.code, save.base)),
                      saving := Some(save.(phase := Sent(n)))),
         wire := s.wire + {n}, requests := s.requests[n := Request(save.base, save.code)])
    case PersistReply =>
      var r := Replied(c, s.replies[c.saving.value.phase.request].value);
      s.(client := r, recorded := s.recorded + Holds(r))
    case PersistFail => s.(client := Failed(c))
    case Take(n, revision) =>
      var q := s.requests[n];
      if ServerAccepts(s.server, q) then
        s.(server := Server(s.server.contents[revision := q.code], Some(revision), revision),
           wire := s.wire - {n}, replies := s.replies[n := Some(revision)])
      else s.(wire := s.wire - {n}, replies := s.replies[n := None])
    case OtherWrite(revision, content) =>
      s.(server := if content.Some? then Server(s.server.contents[revision := content.value], Some(revision), revision)
                   else s.server.(current := None, generation := revision))
    case Lock => s.(client := Locked(c))
    case OpenBegin =>
      s.(client := c.(aborted := false, generation := c.generation + 1, opening := Some(c.generation + 1)))
    case OpenLoaded(revision) =>
      var l := Loaded(c, revision, s.server.contents[revision]);
      s.(client := l, recorded := s.recorded + Holds(l))
    case OpenEnd => s.(client := c.(opening := None))
    case RetryLoaded(revision) =>
      var r := Reconciled(c, revision, s.server.contents[revision]);
      s.(client := r, recorded := s.recorded + Holds(r))
    case RetryFail => s.(client := c.(saveError := true))
  }

  function Holds(c: Client): set<nat> {
    if c.entry.Some? then {c.entry.value} else {}
  }

  // ---------------------------------------------------------------- invariant

  /** The recorded saved text is the text of the revision the editor holds. */
  predicate SavedTextOk(s: State) {
    s.client.entry.Some? ==>
      && s.client.entry.value in s.server.contents && s.client.entry.value in s.recorded
      && s.client.savedText == Normalize(s.server.contents[s.client.entry.value])
  }

  predicate SavingOk(s: State) {
    s.client.saving.Some? ==>
      var save := s.client.saving.value;
      && Normalize(save.code) == save.text && save.base in s.recorded
      && (save.phase.Sent? ==>
            save.phase.request in s.requests && s.requests[save.phase.request] == Request(save.base, save.code))
  }

  predicate DraftOk(s: State) {
    s.client.unconfirmed.Some? ==> Normalize(s.client.unconfirmed.value.code) == s.client.unconfirmed.value.text
  }

  ghost predicate NetworkOk(s: State) {
    && s.wire <= s.requests.Keys
    && (forall n | n in s.requests :: s.requests[n].base in s.recorded)
    && (forall n | n in s.replies && s.replies[n].Some? ::
          n in s.requests && s.replies[n].value in s.server.contents
          && s.server.contents[s.replies[n].value] == s.requests[n].code)
  }

  ghost predicate ServerOk(v: Server) {
    && (forall r | r in v.contents :: r <= v.generation)
    && (v.current.Some? ==> v.current.value in v.contents)
  }

  ghost predicate Inv(s: State) {
    CR !in s.client.value && SavedTextOk(s) && SavingOk(s) && DraftOk(s) && NetworkOk(s) && ServerOk(s.server)
  }

  /** A step of the client alone leaves network and server as they were. */
  lemma ClientStep(s: State, r: State)
    requires Inv(s) && r == s.(client := r.client, recorded := r.recorded) && s.recorded <= r.recorded
    requires CR !in r.client.value && SavedTextOk(r) && SavingOk(r) && DraftOk(r)
    ensures Inv(r)
  {
  }

  lemma SendKeeps(s: State, e: Event)
    requires Inv(s) && Enabled(s, e) && e.PersistSend?
    ensures Inv(Next(s, e))
  {
  }

  /** Every handler that takes on a revision takes on its text with it, or changes neither. */
  ghost predicate TakesOn(c: Client, d: Client, revision: nat, content: bytes) {
    && (|| (d.entry == Some(revision) && d.savedText == Normalize(content))
        || (d.entry == c.entry && d.savedText == c.savedText))
    && CR !in d.value && (d.saving == c.saving || d.saving.None?)
    && (d.unconfirmed == c.unconfirmed || d.unconfirmed.None?)
  }

  lemma RepliedTakesOn(c: Client, revision: nat)
    requires c.saving.Some? && Normalize(c.saving.value.code) == c.saving.value.text && CR !in c.value
    ensures TakesOn(c, Replied(c, revision), revision, c.saving.value.code)
  {
  }

  lemma LoadedTakesOn(c: Client, revision: nat, content: bytes)
    requires c.opening.Some? && CR !in c.value
    ensures TakesOn(c, Loaded(c, revision, content), revision, content)
  {
  }

  lemma ReconciledTakesOn(c: Client, revision: nat, content: bytes)
    requires c.entry.Some? && CR !in c.value && Normalize(Expand(c.value, c.crlf)) == c.value
    requires c.unconfirmed.Some? ==> Normalize(c.unconfirmed.value.code) == c.unconfirmed.value.text
    ensures TakesOn(c, Reconciled(c, revision, content), revision, content)
  {
    ReconciledTo(c, revision, content, Expand(c.value, c.crlf));
  }

  /** Which text a retry takes on, given the bytes that the draft would be sent as. */
  lemma ReconciledTo(c: Client, revision: nat, content: bytes, code: bytes)
    requires c.entry.Some? && code == Expand(c.value, c.crlf)
    ensures var r := Reconciled(c, revision, content);
            && r.value == c.value && r.saving == c.saving && (r.unconfirmed == c.unconfirmed || r.unconfirmed == None)
            && (|| (r.entry == c.entry && r.savedText == c.savedText)
                || (content == code && r.entry == Some(revision) && r.savedText == c.value)
                || (c.unconfirmed.Some? && content == c.unconfirmed.value.code && r.entry == Some(revision)
                    && r.savedText == c.unconfirmed.value.text))
  {
  }

  lemma TakeOnKeeps(s: State, d: Client, revision: nat)
    requires Inv(s) && revision in s.server.contents && TakesOn(s.client, d, revision, s.server.contents[revision])
    ensures Inv(s.(client := d, recorded := s.recorded + Holds(d)))
  {
  }

  lemma ReplyKeeps(s: State, e: Event)
    requires Inv(s) && Enabled(s, e) && e.PersistReply?
    ensures Inv(Next(s, e))
  {
    var n := s.client.saving.value.phase.request;
    var revision := s.replies[n].value;
    RepliedTakesOn(s.client, revision);
    TakeOnKeeps(s, Replied(s.client, revision), revision);
  }

  lemma LoadKeeps(s: State, e: Event)
    requires Inv(s) && Enabled(s, e) && (e.OpenLoaded? || e.RetryLoaded?)
    ensures Inv(Next(s, e))
  {
    var content := s.server.contents[e.revision];
    if e.OpenLoaded? {
      LoadedTakesOn(s.client, e.revision, content);
      TakeOnKeeps(s, Loaded(s.client, e.revision, content), e.revision);
    } else {
      NormalizeExpand(s.client.value, s.client.crlf);
      ReconciledTakesOn(s.client, e.revision, content);
      TakeOnKeeps(s, Reconciled(s.client, e.revision, content), e.revision);
    }
  }

  lemma LocalKeeps(s: State, e: Event)
    requires Inv(s) && Enabled(s, e)
    requires || e.Edit? || e.Allow? || e.PersistBegin? || e.PersistFail? || e.Lock? || e.OpenBegin? || e.OpenEnd?
             || e.RetryFail?
    ensures Inv(Next(s, e))
  {
    NormalizeExpand(s.client.value, s.client.crlf);
    ClientStep(s, Next(s, e));
  }

  lemma ServerKeeps(s: State, e: Event)
    requires Inv(s) && Enabled(s, e) && (e.Take? || e.OtherWrite?)
    ensures Inv(Next(s, e))
  {
  }

  lemma StepKeeps(s: State, e: Event)
    requires Inv(s) && Enabled(s, e)
    ensures Inv(Next(s, e))
  {
    if e.Take? || e.OtherWrite? {
      ServerKeeps(s, e);
    } else if e.PersistSend? {
      SendKeeps(s, e);
    } else if e.PersistReply? {
      ReplyKeeps(s, e);
    } else if e.OpenLoaded? || e.RetryLoaded? {
      LoadKeeps(s, e);
    } else {
      LocalKeeps(s, e);
    }
  }

  // ---------------------------------------------------------------- runs

  /** A fresh page, and a path with any history. */
  ghost predicate Init(s: State) {
    && s.client == Client(None, [], [], false, None, None, false, false, 0, false, None)
    && ServerOk(s.server) && s.wire == {} && s.replies == map[] && s.requests == map[] && s.recorded == {}
  }

  ghost predicate StepAt(ss: seq<State>, es: seq<Event>, i: nat)
    requires |ss| == |es| + 1
  {
    i < |es| ==> Enabled(ss[i], es[i]) && ss[i + 1] == Next(ss[i], es[i])
  }

  ghost predicate Run(ss: seq<State>, es: seq<Event>) {
    && |ss| == |es| + 1 && Init(ss[0])
    && forall i: nat {:trigger StepAt(ss, es, i)} :: StepAt(ss, es, i)
  }

  lemma {:induction false} RunInv(ss: seq<State>, es: seq<Event>, i: nat)
    requires Run(ss, es) && i < |ss|
    ensures Inv(ss[i])
  {
    if i > 0 {
      RunInv(ss, es, i - 1);
      assert StepAt(ss, es, i - 1);
      StepKeeps(ss[i - 1], es[i - 1]);
    }
  }

  /** In every reachable state the saved text is the text of the revision the editor holds. */
  lemma SavedTextIsHeldText(ss: seq<State>, es: seq<Event>, i: nat)
    requires Run(ss, es) && i < |ss| && ss[i].client.entry.Some?
    ensures var r := ss[i].client.entry.value;
            r in ss[i].server.contents && ss[i].client.savedText == Normalize(ss[i].server.contents[r])
  {
    RunInv(ss, es, i);
  }

  /** Contents of a revision never change once written. */
  lemma {:induction false} ContentsStay(ss: seq<State>, es: seq<Event>, i: nat, j: nat, r: nat)
    requires Run(ss, es) && i <= j < |ss| && r in ss[i].server.contents
    ensures r in ss[j].server.contents && ss[j].server.contents[r] == ss[i].server.contents[r]
    decreases j
  {
    if i < j {
      ContentsStay(ss, es, i, j - 1, r);
      RunInv(ss, es, j - 1);
      assert StepAt(ss, es, j - 1);
    }
  }

  /** Whatever the editor ever counted as recorded, it held at some moment, with that revision's text. */
  lemma {:induction false} RecordedWasHeld(ss: seq<State>, es: seq<Event>, j: nat, r: nat) returns (i: nat)
    requires Run(ss, es) && j < |ss| && r in ss[j].recorded
    ensures i <= j && ss[i].client.entry == Some(r) && r in ss[i].server.contents
    ensures ss[i].client.savedText == Normalize(ss[i].server.contents[r])
  {
    RunInv(ss, es, j);
    if ss[j].client.entry == Some(r) {
      i := j;
    } else {
      assert j > 0;
      assert StepAt(ss, es, j - 1);
      i := RecordedWasHeld(ss, es, j - 1, r);
    }
  }

  /**
   * Under any order of edits, saves, lost replies, locks, reopens and retries: when the server accepts
   * an editor save, the version it replaces is one whose text the editor had recorded before.
   */
  lemma SavesReplaceRecordedVersions(ss: seq<State>, es: seq<Event>, j: nat) returns (i: nat)
    requires Run(ss, es) && j < |es| && es[j].Take? && es[j].request in ss[j].requests
    requires ServerAccepts(ss[j].server, ss[j].requests[es[j].request])
    ensures ss[j].server.current.Some?
    ensures var base := ss[j].server.current.value;
            && i <= j && ss[i].client.entry == Some(base) && base in ss[j].server.contents
            && ss[i].client.savedText == Normalize(ss[j].server.contents[base])
  {
    RunInv(ss, es, j);
    assert StepAt(ss, es, j);
    var base := ss[j].requests[es[j].request].base;
    i := RecordedWasHeld(ss, es, j, base);
    ContentsStay(ss, es, i, j, base);
  }

  // ---------------------------------------------------------------- drafts

  /** Only typing changes an unsaved draft. */
  lemma StepKeepsDraft(s: State, e: Event)
    requires Enabled(s, e) && Dirty(s.client) && !e.Edit?
    ensures Next(s, e).client.value == s.client.value && Next(s, e).client.entry.Some?
  {
    if e.Lock? {
      LockKeepsDraft(s.client);
    } else if e.OpenLoaded? || e.RetryLoaded? || e.PersistReply? {
      LoadKeepsDraft(s, e);
    } else {
      OtherKeepsDraft(s, e);
    }
  }

  lemma LoadKeepsDraft(s: State, e: Event)
    requires Enabled(s, e) && Dirty(s.client) && (e.OpenLoaded? || e.RetryLoaded? || e.PersistReply?)
    ensures Next(s, e).client.value == s.client.value && Next(s, e).client.entry.Some?
  {
    if e.OpenLoaded? {
      LoadShowsFile(s.client, e.revision, s.server.contents[e.revision]);
    } else if e.RetryLoaded? {
      RetryReconciles(s.client, e.revision, s.server.contents[e.revision]);
    } else {
      ConfirmedSave(s.client, s.replies[s.client.saving.value.phase.request].value);
    }
  }

  lemma OtherKeepsDraft(s: State, e: Event)
    requires Enabled(s, e) && !e.Edit? && !e.Lock? && !e.OpenLoaded? && !e.RetryLoaded? && !e.PersistReply?
    ensures Next(s, e).client.value == s.client.value && Next(s, e).client.entry == s.client.entry
  {
  }

  /** A draft stays as it was typed until it is the saved text: whatever saves, replies, locks and loads come. */
  lemma {:induction false} DraftSurvives(ss: seq<State>, es: seq<Event>, i: nat, j: nat)
    requires Run(ss, es) && i <= j < |ss| && Dirty(ss[i].client)
    requires forall k | i <= k < j :: !es[k].Edit?
    ensures (forall k | i <= k <= j :: Dirty(ss[k].client)) ==> ss[j].client.value == ss[i].client.value
    ensures !Dirty(ss[j].client) ==>
              exists k :: i < k <= j && ss[k].client.value == ss[i].client.value && ss[k].client.entry.Some?
                          && ss[k].client.savedText == ss[k].client.value
    decreases j
  {
    if i < j {
      DraftSurvives(ss, es, i, j - 1);
      assert StepAt(ss, es, j - 1);
      if forall k | i <= k <= j - 1 :: Dirty(ss[k].client) {
        StepKeepsDraft(ss[j - 1], es[j - 1]);
      } else {
        var m :| i <= m <= j - 1 && !Dirty(ss[m].client);
        DraftSurvives(ss, es, i, m);
      }
    }
  }

  /** A lock keeps a draft with its revision and saved text, ends the permission to edit, and reports an error. */
  lemma LockKeepsDraft(c: Client)
    ensures var l := Locked(c);
            && l.generation == c.generation + 1 && l.aborted && !l.editAllowed
            && l.saving == c.saving && l.unconfirmed == c.unconfirmed && l.opening == c.opening
            && (Dirty(c) ==> l.entry == c.entry && l.value == c.value && l.savedText == c.savedText && l.saveError)
            && (!Dirty(c) ==> l.entry == None && l.value == [] && l.savedText == [] && l.saveError == c.saveError)
  {
  }

  /** A save takes the draft as it stands, in the file's own line breaks, on top of the revision held. */
  lemma SaveTakesDraft(c: Client)
    requires c.entry.Some? && CR !in c.value
    ensures Begun(c).saving.Some?
    ensures var save := Begun(c).saving.value;
            && save.text == c.value && Normalize(save.code) == c.value && Uniform(save.code, c.crlf)
            && c.entry == Some(save.base) && save.generation == c.generation
            && Begun(c) == c.(saving := Some(save))
  {
    NormalizeExpand(c.value, c.crlf);
    RoundTripsWhenUniform(Expand(c.value, c.crlf), c.crlf);
  }

  /** Sending remembers the text with its bytes and base, and puts exactly those on the wire. */
  lemma SendRemembersDraft(s: State, n: nat)
    requires Enabled(s, PersistSend(n))
    ensures s.client.saving.Some?
    ensures var r, save := Next(s, PersistSend(n)), s.client.saving.value;
            && r.client.unconfirmed == Some(Draft(save.text, save.code, save.base))
            && r.client.saving == Some(save.(phase := Sent(n)))
            && r.client == s.client.(unconfirmed := r.client.unconfirmed, saving := r.client.saving)
            && r.requests == s.requests[n := Request(save.base, save.code)] && r.wire == s.wire + {n}
            && r.server == s.server && r.replies == s.replies
  {
  }

  /** A load shows the file's text under its revision, clean and without an error, unless there is a draft. */
  lemma LoadShowsFile(c: Client, revision: nat, content: bytes)
    requires c.opening.Some?
    ensures var l := Loaded(c, revision, content);
            && (c.opening == Some(c.generation) && !Dirty(c) ==>
                  && l.entry == Some(revision) && l.value == Normalize(content) && !Dirty(l) && !l.saveError
                  && (l.crlf <==> exists i :: 0 <= i < |content| - 1 && content[i] == CR && content[i + 1] == LF))
            && (c.opening != Some(c.generation) || Dirty(c) ==> l == c)
  {
  }

  /** A confirmed save leaves what was typed since as a draft on the new revision. */
  lemma ConfirmedSave(c: Client, revision: nat)
    requires c.saving.Some?
    ensures var r, save := Replied(c, revision), c.saving.value;
            && r.value == c.value && r.saving == None
            && (save.generation == c.generation && save.base < revision ==>
                  && r.entry == Some(revision) && r.savedText == save.text && r.unconfirmed == None
                  && r.saveError == c.saveError)
            && (save.generation == c.generation && revision <= save.base ==>
                  r.entry == c.entry && r.savedText == c.savedText && r.saveError)
            && (save.generation != c.generation ==> r == c.(saving := None))
  {
  }

  /** A failed save ends, and leaves an error unless it belongs to an earlier session; the draft is untouched. */
  lemma FailedSave(c: Client)
    requires c.saving.Some?
    ensures var r := Failed(c);
            && r == c.(saving := None, saveError := r.saveError)
            && (r.saveError <==> c.saveError || c.saving.value.generation == c.generation)
  {
  }

  /** A retry clears the error exactly when the remote file is the held revision or bytes that this editor sent. */
  lemma RetryReconciles(c: Client, revision: nat, content: bytes)
    requires c.entry.Some?
    ensures var r := Reconciled(c, revision, content);
            && r.value == c.value
            && (!r.saveError <==>
                  || c.entry == Some(revision) || content == Expand(c.value, c.crlf)
                  || (c.unconfirmed.Some? && content == c.unconfirmed.value.code
                      && revision > c.unconfirmed.value.base))
            && (r.saveError || c.entry == Some(revision) ==> r.entry == c.entry && r.savedText == c.savedText)
            && (!r.saveError ==> r.entry == Some(revision))
  {
  }

  // ---------------------------------------------------------------- the handlers

  /** What the server answers to a save. */
  datatype SaveReply = SaveReply(path: bytes, revision: nat, sha256: bytes, size: nat, deleted: bool)

  /** The reply is about the file and the bytes that were sent. */
  predicate Confirms(reply: SaveReply, path: bytes, digest: bytes -> bytes, code: bytes) {
    reply.path == path && reply.sha256 == digest(code) && !reply.deleted && reply.size == |code|
  }

  class Controller {
    const path: bytes
    const digest: bytes -> bytes
    var entry: Option<nat>
    var savedText: bytes
    var value: bytes
    var crlf: bool
    var saving: Option<Save>
    var unconfirmed: Option<Draft>
    var saveError: bool
    var editAllowed: bool
    var generation: nat
    var aborted: bool
    var opening: Option<nat>

    ghost function Value(): Client
      reads this
    {
      Client(entry, savedText, value, crlf, saving, unconfirmed, saveError, editAllowed, generation, aborted, opening)
    }

    constructor (path: bytes, digest: bytes -> bytes)
      ensures this.path == path && this.digest == digest
      ensures Value() == Client(None, [], [], false, None, None, false, false, 0, false, None)
    {
      this.path, this.digest := path, digest;
      entry, savedText, value, crlf, saving, unconfirmed := None, [], [], false, None, None;
      saveError, editAllowed, generation, aborted, opening := false, false, 0, false, None;
    }

    /** `persist` up to its first await: joins a save under way, or starts one for a dirty, allowed draft. */
    method Persist() returns (started: bool)
      modifies this`saving
      ensures started <==> old(saving.None? && Dirty(Value()) && !saveError && editAllowed)
      ensures Value() == if started then Begun(old(Value())) else old(Value())
    {
      if saving.Some? || entry.None? || value == savedText || saveError || !editAllowed {
        return false;
      }
      saving := Some(Save(value, Expand(value, crlf), entry.value, generation, Hashing));
      started := true;
    }

    /** The end of `persist` when the server answered; an answer about anything else is a failure. */
    method OnSaveReply(reply: SaveReply)
      requires saving.Some?
      modifies this
      ensures Value() == if Confirms(reply, path, digest, old(saving.value.code))
                         then Replied(old(Value()), reply.revision) else Failed(old(Value()))
      ensures var save := old(saving.value);
              (|| entry != old(entry) || savedText != old(savedText) || unconfirmed != old(unconfirmed)) ==>
                && reply.path == path && reply.sha256 == digest(save.code) && reply.size == |save.code|
                && !reply.deleted && save.base < reply.revision && save.generation == old(generation)
                && entry == Some(reply.revision) && savedText == save.text
    {
      var save := saving.value;
      saving := None;
      if save.generation == generation {
        if !Confirms(reply, path, digest, save.code) || reply.revision <= save.base {
          saveError := true;
        } else {
          entry, savedText, unconfirmed := Some(reply.revision), save.text, None;
        }
      }
    }

    method OnSaveFailure()
      requires saving.Some?
      modifies this`saving, this`saveError
      ensures Value() == Failed(old(Value()))
    {
      if saving.value.generation == generation {
        saveError := true;
      }
      saving := None;
    }

    /** `lock`: a draft stays, with an error; anything else is forgotten. */
    method OnLock() returns (draft: bool)
      modifies this
      ensures Value() == Locked(old(Value())) && draft == old(Dirty(Value()))
    {
      draft := entry.Some? && value != savedText;
      generation, aborted, editAllowed := generation + 1, true, false;
      if draft {
        saveError := true;
      } else {
        entry, value, savedText := None, [], [];
      }
    }

    /** `open` after its load. */
    method OnOpenLoaded(revision: nat, content: bytes)
      requires opening.Some?
      modifies this
      ensures Value() == Loaded(old(Value()), revision, content)
    {
      if opening.value != generation || (entry.Some? && value != savedText) {
        return;
      }
      entry, crlf, value := Some(revision), HasCrlf(content), Normalize(content);
      savedText, saveError := value, false;
    }

    /** The retry handler after its load, while a save error stands. */
    method OnRetryLoaded(revision: nat, content: bytes)
      requires entry.Some?
      modifies this
      ensures Value() == Reconciled(old(Value()), revision, content)
    {
      if revision != entry.value {
        if content == Expand(value, crlf) {
          savedText := value;
        } else if unconfirmed.Some? && content == unconfirmed.value.code && revision > unconfirmed.value.base {
          savedText := unconfirmed.value.text;
        } else {
          saveError := true;
          return;
        }
        entry, unconfirmed := Some(revision), None;
      }
      saveError := false;
    }
  }
}
