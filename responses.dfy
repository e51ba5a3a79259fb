/**
  Response bodies of the two endpoints and the strings derived from a job id:
  the tracking URL (main.py:83), the audio file name and path written by the
  worker (main.py:67-68) and the audio URL reported to pollers (main.py:97-98).
*/
module Responses {

  import opened JobIds

  datatype Option<+T> = None | Some(value: T)

  /** Body returned by `POST /audio` (`JobStatus`, main.py:36-39). */
  datatype JobStatus = JobStatus(jobId: string, status: string, trackYourJob: string)

  /** Body returned by `GET /audio/{job_id}` (`AudioStatus`, main.py:42-45). */
  datatype AudioStatus = AudioStatus(jobId: string, status: string, audioUrl: Option<string>)

  /** What `get_audio_status` answers: a 200 with a body, or a 404 with a message. */
  datatype StatusReply =
    | Ok(body: AudioStatus)
    | NotFound(statusCode: int, message: string)

  const NotFoundCode: int := 404
  const NotFoundMessage: string := "Job ID not found"

  /** The directory the worker writes into and the URL prefix it is served under. */
  const AudioDir: string := "audio_files"
  const AudioMount: string := "/audio_files"

  /**
    `os.path.join(a, b)` on POSIX: an absolute `b` replaces `a`; otherwise a
    separator is inserted unless `a` is empty or already ends with one.
  */
  function PathJoin(a: string, b: string): string {
    if |b| > 0 && b[0] == '/' then b
    else if a == [] || a[|a| - 1] == '/' then a + b
    else a + "/" + b
  }

  /** `f"/audio/{job_id}"` (main.py:83). */
  function TrackingUrl(jobId: string): (url: string)
    ensures |url| == |jobId| + 7 && url[..7] == "/audio/" && url[7..] == jobId
  {
    "/audio/" + jobId
  }

  /** `job_id + ".wav"` (main.py:67 and main.py:97). */
  function AudioFileName(jobId: string): (name: string)
    ensures |name| == |jobId| + 4 && name[..|jobId|] == jobId && name[|jobId|..] == ".wav"
  {
    jobId + ".wav"
  }

  /**
    Where the worker writes the file (main.py:68): inside the audio directory,
    unless the id itself starts with a separator.
  */
  function AudioFilePath(jobId: string): (path: string)
    ensures jobId == [] || jobId[0] != '/' ==> path == "audio_files/" + jobId + ".wav"
    ensures jobId != [] && jobId[0] == '/' ==> path == jobId + ".wav"
  {
    var name := AudioFileName(jobId);
    assert jobId != [] ==> name[0] == jobId[0];
    assert AudioDir[|AudioDir| - 1] == 's';
    PathJoin(AudioDir, name)
  }

  /**
    The URL a completed job reports (main.py:98): under the static mount,
    unless the id itself starts with a separator.
  */
  function AudioUrl(jobId: string): (url: string)
    ensures jobId == [] || jobId[0] != '/' ==> url == "/audio_files/" + jobId + ".wav"
    ensures jobId != [] && jobId[0] == '/' ==> url == jobId + ".wav"
  {
    var name := AudioFileName(jobId);
    assert jobId != [] ==> name[0] == jobId[0];
    assert AudioMount[|AudioMount| - 1] == 's';
    PathJoin(AudioMount, name)
  }

  /**
    For a generated id both joins insert exactly one separator, and the URL is
    the file path under the static mount: the reported URL serves the file the
    worker wrote.
  */
  lemma JobIdPaths(jobId: string)
    requires IsJobId(jobId)
    ensures AudioFilePath(jobId) == "audio_files/" + jobId + ".wav"
    ensures AudioUrl(jobId) == "/audio_files/" + jobId + ".wav"
    ensures AudioUrl(jobId) == "/" + AudioFilePath(jobId)
  {
    JobIdHasNoSeparator(jobId);
  }

  /**
    The reported URL is the written file under the mount exactly when the id
    does not start with a separator; an id that does makes `os.path.join`
    drop the directory from both.
  */
  lemma UrlUnderMountIff(jobId: string)
    ensures AudioUrl(jobId) == "/" + AudioFilePath(jobId) <==> (jobId == [] || jobId[0] != '/')
  {
    if jobId != [] && jobId[0] == '/' {
      assert |"/" + AudioFilePath(jobId)| == |AudioUrl(jobId)| + 1;
    } else {
      assert "/audio_files/" + jobId + ".wav" == "/" + ("audio_files/" + jobId + ".wav");
    }
  }
}
