/**
  The job table `job_statuses` (main.py:55) and the three operations on it:
  submission (`process_prompt`, main.py:78-85), completion (the last step of
  `generate_audio_async`, main.py:67-74) and status lookup
  (`get_audio_status`, main.py:88-99).

  The table is specified by the sequence of writes made to it: a submission
  writes "pending" under its id, a finishing worker writes "completed". The
  class below keeps a ghost history of those writes and its invariant says the
  table is exactly their replay.
*/
module Jobs {

  import opened JobIds
  import opened Responses

  /** The two strings ever stored in `job_statuses`. */
  datatype Status = Pending | Completed {
    function Name(): (s: string)
      ensures s == "pending" || s == "completed"
      ensures s == "pending" <==> this == Pending
    {
      match this
      case Pending => "pending"
      case Completed => "completed"
    }
  }

  /** One write to the table: `job_statuses[job_id] = "pending"` or `= "completed"`. */
  datatype Event = Submitted(jobId: string) | Finished(jobId: string)

  /** A background call of `generate_audio_async` handed off by a submission. */
  datatype WorkerTask = WorkerTask(prompt: string, jobId: string)

  /** The table after one write: that key is set, every other entry is as before. */
  function Apply(table: map<string, Status>, e: Event): (table': map<string, Status>)
    ensures table'.Keys == table.Keys + {e.jobId}
    ensures table'[e.jobId] == if e.Submitted? then Pending else Completed
    ensures forall k :: k in table && k != e.jobId ==> table'[k] == table[k]
  {
    match e
    case Submitted(id) => table[id := Pending]
    case Finished(id) => table[id := Completed]
  }

  /** The table after a sequence of writes, oldest first. */
  function Replay(table: map<string, Status>, history: seq<Event>): map<string, Status>
    decreases |history|
  {
    if history == [] then table
    else Apply(Replay(table, history[..|history| - 1]), history[|history| - 1])
  }

  /** The ids mentioned by a sequence of writes. */
  function IdsOf(history: seq<Event>): set<string> {
    set e | e in history :: e.jobId
  }

  /**
    `get_audio_status`: unknown ids get a 404; a pending job reports no URL; a
    completed job reports the URL of its audio file. Nothing is written.
  */
  function GetAudioStatus(jobStatuses: map<string, Status>, jobId: string): (r: StatusReply)
    ensures r.NotFound? <==> jobId !in jobStatuses
    ensures r.NotFound? ==> r.statusCode == 404 && r.message == "Job ID not found"
    ensures r.Ok? ==> r.body.jobId == jobId && r.body.status == jobStatuses[jobId].Name()
    ensures r.Ok? ==> (r.body.audioUrl.Some? <==> jobStatuses[jobId] == Completed)
    ensures r.Ok? && r.body.audioUrl.Some? ==> r.body.audioUrl.value == AudioUrl(jobId)
  {
    if jobId !in jobStatuses then NotFound(NotFoundCode, NotFoundMessage)
    else
      match jobStatuses[jobId]
      case Pending => Ok(AudioStatus(jobId, "pending", None))
      case Completed => Ok(AudioStatus(jobId, "completed", Some(AudioUrl(jobId))))
  }

  /** The keys of the table are the ones it started with plus every id written. */
  lemma {:induction false} ReplayKeys(table: map<string, Status>, history: seq<Event>)
    ensures Replay(table, history).Keys == table.Keys + IdsOf(history)
    decreases |history|
  {
    if history != [] {
      var front, last := history[..|history| - 1], history[|history| - 1];
      ReplayKeys(table, front);
      assert history == front + [last];
      assert IdsOf(history) == IdsOf(front) + {last.jobId};
    }
  }

  /** Replaying one more write is applying it to the replay so far. */
  lemma ReplaySnoc(table: map<string, Status>, history: seq<Event>, e: Event)
    ensures Replay(table, history + [e]) == Apply(Replay(table, history), e)
  {
    assert (history + [e])[..|history|] == history;
  }

  /** An id nobody has written is still unknown: polling it gives a 404. */
  lemma NotFoundUntilWritten(table: map<string, Status>, history: seq<Event>, jobId: string)
    requires jobId !in table && jobId !in IdsOf(history)
    ensures GetAudioStatus(Replay(table, history), jobId) == NotFound(404, "Job ID not found")
  {
    ReplayKeys(table, history);
  }

  /**
    A completed job stays completed through any writes that do not submit the
    same id again; completing it again or touching other jobs changes nothing.
  */
  lemma {:induction false} CompletedIsStable(table: map<string, Status>, history: seq<Event>, jobId: string)
    requires jobId in table && table[jobId] == Completed
    requires Submitted(jobId) !in history
    ensures jobId in Replay(table, history) && Replay(table, history)[jobId] == Completed
    decreases |history|
  {
    if history != [] {
      var front := history[..|history| - 1];
      assert forall e :: e in front ==> e in history;
      CompletedIsStable(table, front, jobId);
    }
  }

  /** Hence polling a completed job keeps answering the same thing. */
  lemma CompletedPollIsStable(table: map<string, Status>, history: seq<Event>, jobId: string)
    requires jobId in table && table[jobId] == Completed
    requires Submitted(jobId) !in history
    ensures GetAudioStatus(Replay(table, history), jobId) == GetAudioStatus(table, jobId)
  {
    CompletedIsStable(table, history, jobId);
  }

  /**
    The only way a job can read "pending" is that it was pending already or a
    submission wrote it: no worker ever sets a job back to pending.
  */
  lemma {:induction false} PendingOnlyBySubmission(table: map<string, Status>, history: seq<Event>, jobId: string)
    requires jobId in Replay(table, history) && Replay(table, history)[jobId] == Pending
    ensures (jobId in table && table[jobId] == Pending) || Submitted(jobId) in history
    decreases |history|
  {
    if history != [] {
      var front, last := history[..|history| - 1], history[|history| - 1];
      if last != Submitted(jobId) {
        assert jobId in Replay(table, front) && Replay(table, front)[jobId] == Pending;
        PendingOnlyBySubmission(table, front, jobId);
        assert forall e :: e in front ==> e in history;
      }
    }
  }

  /**
    The submission does not check for an existing id: a colliding id turns a
    completed job back into a pending one, and its URL disappears.
  */
  lemma SubmitCollisionResetsCompleted(table: map<string, Status>, jobId: string)
    requires jobId in table && table[jobId] == Completed
    ensures GetAudioStatus(table, jobId).body.audioUrl == Some(AudioUrl(jobId))
    ensures GetAudioStatus(Apply(table, Submitted(jobId)), jobId) == Ok(AudioStatus(jobId, "pending", None))
  {
  }

  /** Completing one job leaves every other job's answer unchanged. */
  lemma FinishIsIndependent(table: map<string, Status>, a: string, b: string)
    requires a != b
    ensures GetAudioStatus(Apply(table, Finished(a)), b) == GetAudioStatus(table, b)
  {
  }

  /**
    For a generated id, a completed job's URL is "/audio_files/<id>.wav",
    which is the file the worker wrote, under the mount.
  */
  lemma CompletedReplyNamesWorkerFile(table: map<string, Status>, jobId: string)
    requires IsJobId(jobId)
    requires jobId in table && table[jobId] == Completed
    ensures GetAudioStatus(table, jobId) == Ok(AudioStatus(jobId, "completed", Some("/audio_files/" + jobId + ".wav")))
    ensures "/audio_files/" + jobId + ".wav" == "/" + AudioFilePath(jobId)
  {
    JobIdPaths(jobId);
  }

  /** The process-wide job table and the work handed to the background. */
  class JobStore {
    var jobStatuses: map<string, Status>
    /** Every write made to the table, oldest first. */
    ghost var history: seq<Event>
    /** Every background task scheduled by a submission, oldest first. */
    ghost var scheduled: seq<WorkerTask>

    ghost predicate Valid()
      reads this
    {
      && jobStatuses == Replay(map[], history)
      && (forall e :: e in history ==> IsJobId(e.jobId))
      && (forall t :: t in scheduled ==> Submitted(t.jobId) in history)
    }

    /** `job_statuses = {}` (main.py:55). */
    constructor ()
      ensures Valid()
      ensures jobStatuses == map[] && history == [] && scheduled == []
    {
      jobStatuses := map[];
      history := [];
      scheduled := [];
    }

    /** Every key of the table is a generated id. */
    lemma KeysAreJobIds()
      requires Valid()
      ensures forall k :: k in jobStatuses ==> IsJobId(k)
    {
      ReplayKeys(map[], history);
    }

    /**
      `process_prompt`: generate an id from the draws, write "pending" under it
      (overwriting whatever was there), schedule the worker and answer with the
      tracking URL.
    */
    method ProcessPrompt(prompt: string, draws: seq<Draw>) returns (r: JobStatus)
      requires Valid()
      requires |draws| == JobIdLength
      modifies this
      ensures Valid()
      ensures r.jobId == GenerateJobId(draws) && IsJobId(r.jobId)
      ensures r.status == "pending" && r.trackYourJob == "/audio/" + r.jobId
      ensures jobStatuses == old(jobStatuses)[r.jobId := Pending]
      ensures history == old(history) + [Submitted(r.jobId)]
      ensures scheduled == old(scheduled) + [WorkerTask(prompt, r.jobId)]
    {
      var jobId := GenerateJobId(draws);
      ReplaySnoc(map[], history, Submitted(jobId));
      jobStatuses := jobStatuses[jobId := Pending];
      history := history + [Submitted(jobId)];
      scheduled := scheduled + [WorkerTask(prompt, jobId)];
      var jobStatusUrl := TrackingUrl(jobId);
      r := JobStatus(jobId, "pending", jobStatusUrl);
    }

    /**
      The bookkeeping of `generate_audio_async` for a scheduled task: derive the
      file path from the id, then write "completed" under the id. Returns the
      path the audio is exported to.
    */
    method GenerateAudioAsync(prompt: string, jobId: string) returns (audioFilepath: string)
      requires Valid()
      requires WorkerTask(prompt, jobId) in scheduled
      modifies this
      ensures Valid()
      ensures audioFilepath == "audio_files/" + jobId + ".wav"
      ensures jobStatuses == old(jobStatuses)[jobId := Completed]
      ensures history == old(history) + [Finished(jobId)]
      ensures scheduled == old(scheduled)
    {
      assert IsJobId(jobId);
      JobIdPaths(jobId);
      var audioFilename := AudioFileName(jobId);
      audioFilepath := PathJoin(AudioDir, audioFilename);
      ReplaySnoc(map[], history, Finished(jobId));
      jobStatuses := jobStatuses[jobId := Completed];
      history := history + [Finished(jobId)];
    }
  }

  /**
    The client's view of one job: submit, poll at once, let the worker finish,
    poll twice more.
  */
  method SubmitAndPoll(prompt: string, draws: seq<Draw>)
    returns (submitted: JobStatus, first: StatusReply, last: StatusReply, again: StatusReply)
    requires |draws| == JobIdLength
    ensures IsJobId(submitted.jobId) && submitted.status == "pending"
    ensures submitted.trackYourJob == "/audio/" + submitted.jobId
    ensures first == Ok(AudioStatus(submitted.jobId, "pending", None))
    ensures last == Ok(AudioStatus(submitted.jobId, "completed", Some("/audio_files/" + submitted.jobId + ".wav")))
    ensures again == last
  {
    var store := new JobStore();
    submitted := store.ProcessPrompt(prompt, draws);
    first := GetAudioStatus(store.jobStatuses, submitted.jobId);
    var _ := store.GenerateAudioAsync(prompt, submitted.jobId);
    CompletedReplyNamesWorkerFile(store.jobStatuses, submitted.jobId);
    last := GetAudioStatus(store.jobStatuses, submitted.jobId);
    again := GetAudioStatus(store.jobStatuses, submitted.jobId);
  }
}
