/**
 * The main window's watching session: the worker it started (if any), the
 * caption of the start/stop button and the application log, and how the
 * button, the close of the window and the end of the worker's run change
 * them. It also routes each chat the worker hands over, and the test
 * button, to the webhook, recording the posts it makes.
 *
 * Whether the chosen file exists is asked of the file system; here it is a
 * parameter. The worker's own thread is not modelled: its start and stop
 * are changes of the worker's `running` flag.
 */
module Session {
  import opened Wrappers
  import opened Webhook

  /** A worker started on `filepath`, `running` until it is stopped or its run ends. */
  datatype Worker = Worker(filepath: string, running: bool)

  /** What the window keeps about watching: the worker, the button's caption and the application log. */
  datatype State = State(worker: Option<Worker>, caption: string, log: seq<string>)

  const StartCaption: string := "Iniciar vigilancia"
  const StopCaption: string := "Detener vigilancia"
  const InvalidPathLine: string := "Ruta de archivo inv\U{E1}lida o no existe."
  const StartedLine: string := "Vigilancia iniciada."
  const StoppedLine: string := "Vigilancia detenida."

  /** The state of a window just opened: no worker, the start caption, an empty log. */
  const Initial: State := State(None, StartCaption, [])

  /**
   * The button shows the stop caption exactly while the window holds a
   * worker, and a worker was only ever started on a non-empty path.
   */
  predicate Consistent(s: State) {
    && (s.caption == StopCaption <==> s.worker.Some?)
    && (s.caption == StartCaption || s.caption == StopCaption)
    && (s.worker.Some? ==> s.worker.value.filepath != [])
  }

  /** Starting on `filepath`: refused with a log line when the path is empty or does not exist. */
  function Start(s: State, filepath: string, fileExists: bool): (r: State)
    ensures Consistent(s) ==> Consistent(r)
    ensures s.log <= r.log
  {
    if filepath == [] || !fileExists then s.(log := s.log + [InvalidPathLine])
    else State(Some(Worker(filepath, true)), StopCaption, s.log + [StartedLine])
  }

  /** Stopping: the worker is stopped and dropped; nothing happens without one. */
  function Stop(s: State): (r: State)
    ensures Consistent(s) ==> Consistent(r)
    ensures s.log <= r.log
  {
    if s.worker.Some? then State(None, StartCaption, s.log + [StoppedLine]) else s
  }

  /** The start/stop button: stops a running worker, and starts one otherwise. */
  function Toggle(s: State, filepath: string, fileExists: bool): (r: State)
    ensures Consistent(s) ==> Consistent(r)
    ensures s.log <= r.log
  {
    if s.worker.Some? && s.worker.value.running then Stop(s) else Start(s, filepath, fileExists)
  }

  /** The worker's run ends on its own (the file was missing, or reading failed). */
  function Finished(s: State): (r: State)
    ensures Consistent(s) ==> Consistent(r)
    ensures r.log == s.log && r.caption == s.caption
    ensures r.worker.Some? <==> s.worker.Some?
    ensures r.worker.Some? ==> !r.worker.value.running && r.worker.value.filepath == s.worker.value.filepath
  {
    if s.worker.Some? then s.(worker := Some(s.worker.value.(running := false))) else s
  }

  /** Closing the window stops the worker but leaves it in place. */
  function Close(s: State): (r: State)
    ensures Consistent(s) ==> Consistent(r)
    ensures r.log == s.log && r.caption == s.caption
    ensures r.worker.Some? <==> s.worker.Some?
    ensures r.worker.Some? ==> !r.worker.value.running && r.worker.value.filepath == s.worker.value.filepath
  {
    Finished(s)
  }

  // ---------------------------------------------------------------------
  // What the session guarantees

  /** A window just opened is consistent. */
  lemma InitialConsistent()
    ensures Consistent(Initial)
  {
  }

  /** An empty or missing path is refused: only the error line is added. */
  lemma StartRejected(s: State, filepath: string, fileExists: bool)
    requires filepath == [] || !fileExists
    ensures Start(s, filepath, fileExists).worker == s.worker
    ensures Start(s, filepath, fileExists).caption == s.caption
    ensures Start(s, filepath, fileExists).log == s.log + [InvalidPathLine]
  {
  }

  /** A path that exists starts a running worker on it, whatever the window held before. */
  lemma StartAccepted(s: State, filepath: string)
    requires filepath != []
    ensures Start(s, filepath, true).worker == Some(Worker(filepath, true))
    ensures Start(s, filepath, true).caption == StopCaption
    ensures Start(s, filepath, true).log == s.log + [StartedLine]
  {
  }

  /** The button stops a running worker and drops it. */
  lemma ToggleStopsRunning(s: State, filepath: string, fileExists: bool)
    requires s.worker.Some? && s.worker.value.running
    ensures Toggle(s, filepath, fileExists).worker == None
    ensures Toggle(s, filepath, fileExists).caption == StartCaption
    ensures Toggle(s, filepath, fileExists).log == s.log + [StoppedLine]
  {
  }

  /** Stopping twice is stopping once. */
  lemma StopIdempotent(s: State)
    ensures Stop(Stop(s)) == Stop(s)
  {
  }

  /** From a fresh window, two presses on an existing file start and then stop a worker. */
  lemma ToggleTwice(filepath: string)
    requires filepath != []
    ensures Toggle(Toggle(Initial, filepath, true), filepath, true) == State(None, StartCaption, [StartedLine, StoppedLine])
  {
  }

  /**
   * When the worker's run ends on its own the button still shows the stop
   * caption, yet pressing it starts a new worker rather than stopping.
   */
  lemma StaleCaption(s: State, filepath: string)
    requires Consistent(s) && s.worker.Some? && filepath != []
    ensures Finished(s).caption == StopCaption
    ensures Toggle(Finished(s), filepath, true).worker == Some(Worker(filepath, true))
    ensures Toggle(Finished(s), filepath, true).log == s.log + [StartedLine]
  {
  }

  // ---------------------------------------------------------------------
  // The window

  /**
   * The main window: the texts of its file, webhook and template fields,
   * the watching session, and the posts it has made to the webhook.
   */
  class MainWindow {
    var filePath: string
    var webhookField: string
    var template: string
    var tailWorker: Option<Worker>
    var startCaption: string
    var log: seq<string>
    var posts: seq<Post>

    /** The session part of the window's state. */
    function Watching(): State
      reads this
    {
      State(tailWorker, startCaption, log)
    }

    predicate Valid()
      reads this
    {
      Consistent(Watching())
    }

    /** A window opened with its fields filled from the configuration. */
    constructor(filePath: string, webhookField: string, template: string)
      ensures Valid() && Watching() == Initial && posts == []
      ensures this.filePath == filePath && this.webhookField == webhookField && this.template == template
    {
      this.filePath := filePath;
      this.webhookField := webhookField;
      this.template := template;
      tailWorker := None;
      startCaption := StartCaption;
      log := [];
      posts := [];
    }

    /** Adds a line to the application log (timestamps are not modelled). */
    method AppendLog(text: string)
      modifies this
      ensures log == old(log) + [text]
      ensures tailWorker == old(tailWorker) && startCaption == old(startCaption) && posts == old(posts)
      ensures filePath == old(filePath) && webhookField == old(webhookField) && template == old(template)
    {
      log := log + [text];
    }

    /** Records what handling an event did: its post, if any, and its log lines. */
    method Deliver(d: Delivery)
      modifies this
      ensures log == old(log) + d.log
      ensures posts == old(posts) + (if d.post.Some? then [d.post.value] else [])
      ensures tailWorker == old(tailWorker) && startCaption == old(startCaption)
      ensures filePath == old(filePath) && webhookField == old(webhookField) && template == old(template)
    {
      log := log + d.log;
      if d.post.Some? {
        posts := posts + [d.post.value];
      }
    }

    /** Starts watching the file of the file field, if it is given and exists. */
    method StartWatching(fileExists: bool)
      requires Valid()
      modifies this
      ensures Valid()
      ensures Watching() == Start(old(Watching()), filePath, fileExists)
      ensures posts == old(posts)
      ensures filePath == old(filePath) && webhookField == old(webhookField) && template == old(template)
    {
      if filePath == [] || !fileExists {
        AppendLog(InvalidPathLine);
        return;
      }
      tailWorker := Some(Worker(filePath, true));
      startCaption := StopCaption;
      AppendLog(StartedLine);
    }

    /** Stops and drops the worker, if there is one. */
    method StopWatching()
      requires Valid()
      modifies this
      ensures Valid()
      ensures Watching() == Stop(old(Watching()))
      ensures posts == old(posts)
      ensures filePath == old(filePath) && webhookField == old(webhookField) && template == old(template)
    {
      if tailWorker.Some? {
        tailWorker := None;
        startCaption := StartCaption;
        AppendLog(StoppedLine);
      }
    }

    /** The start/stop button. */
    method ToggleWatch(fileExists: bool)
      requires Valid()
      modifies this
      ensures Valid()
      ensures Watching() == Toggle(old(Watching()), filePath, fileExists)
      ensures posts == old(posts)
      ensures filePath == old(filePath) && webhookField == old(webhookField) && template == old(template)
    {
      if tailWorker.Some? && tailWorker.value.running {
        StopWatching();
      } else {
        StartWatching(fileExists);
      }
    }

    /** The worker's run ended on its own. */
    method WorkerFinished()
      requires Valid()
      modifies this
      ensures Valid()
      ensures Watching() == Finished(old(Watching()))
      ensures posts == old(posts)
      ensures filePath == old(filePath) && webhookField == old(webhookField) && template == old(template)
    {
      if tailWorker.Some? {
        tailWorker := Some(tailWorker.value.(running := false));
      }
    }

    /** Closing the window: the worker is stopped, and the field keeps it. */
    method CloseWindow()
      requires Valid()
      modifies this
      ensures Valid()
      ensures Watching() == Close(old(Watching()))
      ensures posts == old(posts)
      ensures filePath == old(filePath) && webhookField == old(webhookField) && template == old(template)
    {
      WorkerFinished();
    }

    /**
     * A chat handed over by the worker: its content is rendered with the
     * template field, posted to the webhook field's address unless it is
     * blank, and the outcome is logged; `response` is the reply the post gets.
     */
    method OnNewChat(platformId: string, user: string, message: string, response: Response)
      requires Valid()
      modifies this
      ensures Valid()
      ensures var d := NewChat(template, webhookField, platformId, user, message, response);
              && log == old(log) + d.log
              && posts == old(posts) + (if d.post.Some? then [d.post.value] else [])
      ensures tailWorker == old(tailWorker) && startCaption == old(startCaption)
      ensures filePath == old(filePath) && webhookField == old(webhookField) && template == old(template)
    {
      var d := NewChat(template, webhookField, platformId, user, message, response);
      Deliver(d);
    }

    /** The test button: posts the test message unless the webhook field is blank; `response` is the reply. */
    method TestWebhookButton(response: Response)
      requires Valid()
      modifies this
      ensures Valid()
      ensures var d := TestWebhook(webhookField, response);
              && log == old(log) + d.log
              && posts == old(posts) + (if d.post.Some? then [d.post.value] else [])
      ensures tailWorker == old(tailWorker) && startCaption == old(startCaption)
      ensures filePath == old(filePath) && webhookField == old(webhookField) && template == old(template)
    {
      var d := TestWebhook(webhookField, response);
      Deliver(d);
    }
  }
}
