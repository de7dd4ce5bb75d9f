/** The application shell: where the document comes from at start, the
    template choice, and the write-back of the whole document to local storage
    after every change. */
module App {
  import opened Resume
  import opened Editor
  import Preview
  import AtsScore

  /** The one storage key the document lives under. */
  const StorageKey := "resumeData"

  /** The template every session starts with. */
  const DefaultTemplate := "modern"

  /** Local storage, with each stored value already decoded into a document. */
  type Storage = map<string, Document>

  /** Whether a browser window (and so local storage) exists. */
  datatype Host = Browser | NoWindow

  /** The initial `resumeData`: in a browser, the stored document when there is
      one, else the skeleton; without a window, the skeleton. */
  function InitialDocument(host: Host, storage: Storage): Document
  {
    match host
    case Browser => if StorageKey in storage then storage[StorageKey] else Skeleton
    case NoWindow => Skeleton
  }

  /** The save effect: the whole document overwrites the value under the key. */
  function Save(storage: Storage, d: Document): (r: Storage)
    ensures StorageKey in r && r[StorageKey] == d
    ensures r.Keys == storage.Keys + {StorageKey}
    ensures forall k :: k in storage && k != StorageKey ==> r[k] == storage[k]
  {
    storage[StorageKey := d]
  }

  /** A running editor: the current document, the chosen template key, and storage. */
  datatype Session = Session(doc: Document, template: string, storage: Storage)

  /** Storage holds exactly the current document. */
  predicate Saved(s: Session)
  {
    StorageKey in s.storage && s.storage[StorageKey] == s.doc
  }

  /** Opening the page in a browser: load, start on the default template, and run
      the save effect once for the initial document. */
  function Start(storage: Storage): (s: Session)
    ensures s.template == DefaultTemplate
    ensures Saved(s)
    ensures s.storage == Save(storage, s.doc)
    ensures StorageKey in storage ==> s.doc == storage[StorageKey]
    ensures StorageKey !in storage ==> s.doc == Skeleton
  {
    var d := InitialDocument(Browser, storage);
    Session(d, DefaultTemplate, Save(storage, d))
  }

  /** What the user can do: edit a field, add or remove an entry, or pick a template. */
  datatype Action =
    | Change(edit: Edit)
    | Add(section: ListSection)
    | Remove(section: ListSection, index: int)
    | Choose(template: string)

  predicate Allowed(s: Session, a: Action)
  {
    a.Change? ==> Applicable(s.doc, a.edit)
  }

  /** One user action. A document change is followed by the save effect; a
      template choice touches neither the document nor storage. */
  function Step(s: Session, a: Action): (r: Session)
    requires Allowed(s, a)
    ensures a.Choose? ==> r.doc == s.doc && r.storage == s.storage && r.template == a.template
    ensures !a.Choose? ==> r.template == s.template && r.storage == Save(s.storage, r.doc)
    ensures a.Change? ==> r.doc == HandleInputChange(s.doc, a.edit)
    ensures a.Add? ==> r.doc == AddItem(s.doc, a.section)
    ensures a.Remove? ==> r.doc == RemoveItem(s.doc, a.section, a.index)
  {
    match a
    case Change(e) => Commit(s, HandleInputChange(s.doc, e))
    case Add(sec) => Commit(s, AddItem(s.doc, sec))
    case Remove(sec, i) => Commit(s, RemoveItem(s.doc, sec, i))
    case Choose(t) => s.(template := t)
  }

  function Commit(s: Session, d: Document): Session
  {
    s.(doc := d, storage := Save(s.storage, d))
  }

  /** Every action of `actions`, in order, is allowed where it is applied. */
  predicate AllowedRun(s: Session, actions: seq<Action>)
    decreases |actions|
  {
    |actions| == 0 || (Allowed(s, actions[0]) && AllowedRun(Step(s, actions[0]), actions[1..]))
  }

  function Run(s: Session, actions: seq<Action>): Session
    requires AllowedRun(s, actions)
    decreases |actions|
  {
    if |actions| == 0 then s else Run(Step(s, actions[0]), actions[1..])
  }

  /** Each action keeps storage in step with the document. */
  lemma StepKeepsSaved(s: Session, a: Action)
    requires Allowed(s, a) && Saved(s)
    ensures Saved(Step(s, a))
  {
  }

  /** After any run of actions from a session whose storage holds its document,
      storage still holds the current document, and every other key is as it was. */
  lemma {:induction false} RunKeepsSaved(s: Session, actions: seq<Action>)
    requires Saved(s) && AllowedRun(s, actions)
    ensures Saved(Run(s, actions))
    ensures Run(s, actions).storage.Keys == s.storage.Keys
    ensures forall k :: k in s.storage && k != StorageKey ==> Run(s, actions).storage[k] == s.storage[k]
    decreases |actions|
  {
    if |actions| > 0 {
      StepKeepsSaved(s, actions[0]);
      RunKeepsSaved(Step(s, actions[0]), actions[1..]);
    }
  }

  /** Reopening the page after any session brings back its last document, and the
      template is back to the default whatever was chosen before. */
  lemma ReloadRestoresDocument(storage: Storage, actions: seq<Action>)
    requires AllowedRun(Start(storage), actions)
    ensures Start(Run(Start(storage), actions).storage).doc == Run(Start(storage), actions).doc
    ensures Start(Run(Start(storage), actions).storage).template == DefaultTemplate
  {
    RunKeepsSaved(Start(storage), actions);
  }

  /** Choosing a template is never written to storage: two sessions that differ only in
      the template key write the same storage for the same document change. */
  lemma TemplateNotPersisted(s: Session, t: string, a: Action)
    requires Allowed(s, a) && !a.Choose?
    ensures Step(s.(template := t), a).storage == Step(s, a).storage
    ensures Step(s.(template := t), a).doc == Step(s, a).doc
  {
  }

  /** Both start-up branches that find nothing stored yield the same empty skeleton,
      and that skeleton scores zero. */
  lemma FallbacksAgree(storage: Storage)
    requires StorageKey !in storage
    ensures InitialDocument(Browser, storage) == InitialDocument(NoWindow, storage) == Skeleton
    ensures forall f :: Get(InitialDocument(NoWindow, storage).personalInfo, f) == ""
    ensures forall sec :: InitialDocument(NoWindow, storage).Entries(sec) == []
    ensures AtsScore.Score(InitialDocument(Browser, storage)) == 0
  {
    SkeletonIsEmpty();
    AtsScore.SkeletonScoresZero();
  }

  /** Every template the editor offers, including the default, is one the preview renders. */
  lemma OfferedTemplatesRender(d: Document)
    ensures forall t :: t in OfferedTemplates ==> Preview.Selected(d, t).Some?
    ensures DefaultTemplate in OfferedTemplates
  {
    Preview.UnknownTemplateShowsNothing(d, "modern");
    Preview.UnknownTemplateShowsNothing(d, "classic");
  }
}
