# Job tracking of the text-to-audio service

The service accepts a prompt on `POST /audio`, answers at once with a job id
and a tracking URL, and runs speech synthesis in the background. Clients poll
`GET /audio/{job_id}` until the job reads "completed" and then fetch
`/audio_files/<id>.wav`. This project models the bookkeeping behind that
protocol in `main.py`. It covers:

- the id generator;
- the process-wide table `job_statuses`;
- the submission handler, which writes "pending" and schedules the worker;
- the worker's last step, which names the file and writes "completed";
- the status lookup.

Files:

- `job_ids.dfy` (module `JobIds`): the 62-symbol alphabet and id generation.
  The random draws are an input: a sequence of 30 indices below 62. The
  module also gives the inverse map from ids back to draws.
- `responses.dfy` (module `Responses`): the response bodies, a model of
  `os.path.join` for two components, and the strings derived from an id. These
  are the tracking URL, the file name, the file path and the audio URL.
- `job_store.dfy` (module `Jobs`): the `Status` values, the table as the
  replay of its writes (`Event`, `Apply`, `Replay`), the lookup
  `GetAudioStatus`, and lemmas about sequences of writes.
  - The class `JobStore` holds the table in its field `jobStatuses`.
  - It keeps a ghost history of writes and a ghost list of scheduled worker
    tasks.
  - Its invariant `Valid()` says that the table is exactly the replay of
    that history.
  - `SubmitAndPoll` is the client's view of one job from submission to
    completion.

The lookup is a function of the table: `GetAudioStatus(store.jobStatuses, id)`.
The Python handler reads the global dict in the same way and never writes it.
Polling twice therefore gives the same answer.

Behaviour of the code worth knowing:

- main.py:79-80 never checks whether the generated id is already in the
  table, so a colliding id overwrites the entry. `ProcessPrompt` therefore
  has no freshness precondition, and `SubmitCollisionResetsCompleted` shows a
  completed job turning pending again. `GenerateJobIdInjective` only shows
  that distinct draws give distinct ids; ids themselves are not proved unique.
- main.py:74 stores only the string "completed"; the audio URL is derived from
  the id at lookup time (main.py:97-98). `CompletedReplyNamesWorkerFile` shows
  that this URL is the file the worker wrote (main.py:67-68), under the static
  mount.
- main.py:74 writes "completed" unconditionally, so completing a job twice
  writes the same value again.

## Model

| member | source | states |
|---|---|---|
| JobIds.AlphabetLayout | main.py:50 | the alphabet has 62 symbols: a-z, then A-Z, then 0-9, each run consecutive |
| JobIds.GenerateJobId | main.py:48-52 | the id built from 30 draws has length 30 and every character is an ASCII letter or digit |
| JobIds.SymbolIndex | main.py:50 | every symbol of the alphabet sits at exactly one position, so no symbol repeats |
| JobIds.DrawsFor | main.py:51 | every 30-character alphanumeric string is the id of some sequence of draws |
| JobIds.GenerateJobIdInjective | main.py:51 | two draw sequences that give the same id are equal |
| JobIds.DrawsForGenerateJobId | main.py:51 | recovering the draws from a generated id gives back the original draws |
| JobIds.JobIdHasNoSeparator | main.py:50-51 | a generated id is non-empty, contains no '/' and does not start with '.' |
| Responses.TrackingUrl | main.py:83 | the tracking URL is "/audio/" followed by exactly the job id |
| Responses.AudioFileName | main.py:67 | the file name is the job id followed by exactly ".wav" |
| Responses.JobIdPaths | main.py:97-98 | for a generated id, the file path is "audio_files/<id>.wav", the URL is "/audio_files/<id>.wav", and the URL is "/" plus the file path (main.py:67-68) |
| Responses.AudioFilePath | main.py:67-68 | the worker's file path is "audio_files/<id>.wav" for an id not starting with '/', and "<id>.wav" (the directory dropped) for one that does |
| Responses.AudioUrl | main.py:97-98 | the reported URL is "/audio_files/<id>.wav" for an id not starting with '/', and "<id>.wav" (the mount dropped) for one that does |
| Responses.UrlUnderMountIff | main.py:97-98 | the URL equals "/" plus the worker's file path if and only if the id is empty or does not start with '/' (main.py:67-68) |
| Jobs.Status.Name | main.py:80 | the string stored for a job is "pending" or "completed", and it is "pending" exactly for a pending job |
| Jobs.Apply | main.py:74-80 | one write sets exactly its key, to pending for a submission and to completed for a worker; every other entry is unchanged |
| Jobs.GetAudioStatus | main.py:88-99 | unknown id gives 404 with "Job ID not found"; otherwise the body echoes the id and the stored status, and a URL is present if and only if the job is completed, in which case it is the job's audio URL |
| Jobs.ReplayKeys | main.py:74-80 | the table's keys are the initial keys plus every id written; entries are never removed |
| Jobs.NotFoundUntilWritten | main.py:90-91 | an id that no write has touched is answered with 404 "Job ID not found" |
| Jobs.CompletedIsStable | main.py:74-80 | a completed job stays completed through any writes that do not submit the same id again |
| Jobs.CompletedPollIsStable | main.py:88-99 | once completed, polling gives the same reply after any writes that do not resubmit the id |
| Jobs.PendingOnlyBySubmission | main.py:74-80 | a job reads pending only if it already did or a submission of that id occurred; no worker sets pending |
| Jobs.SubmitCollisionResetsCompleted | main.py:79-80 | resubmitting an id that is completed makes its lookup pending with no URL |
| Jobs.FinishIsIndependent | main.py:74 | completing one job leaves the lookup of every other id unchanged |
| Jobs.CompletedReplyNamesWorkerFile | main.py:96-99 | for a generated id, a completed lookup returns "/audio_files/<id>.wav", which is "/" plus the path the worker wrote |
| Jobs.JobStore.constructor | main.py:55 | the table starts empty, with no writes and no scheduled tasks |
| Jobs.JobStore.KeysAreJobIds | main.py:79-80 | every key in a valid store is a generated 30-character alphanumeric id |
| Jobs.JobStore.ProcessPrompt | main.py:78-85 | the id is the one the draws generate; the table is the old one with that id set to pending, overwriting any existing entry; one worker task (prompt, id) is scheduled; the reply is status "pending", the same id, and "/audio/<id>" |
| Jobs.JobStore.GenerateAudioAsync | main.py:67-74 | for a scheduled task, the file path is "audio_files/<id>.wav" and the table is the old one with that id set to completed; the scheduled tasks are unchanged |
| Jobs.SubmitAndPoll | main.py:78-99 | from a fresh table, a submission replies pending with a 30-character id and "/audio/<id>"; an immediate poll is pending with no URL; after the worker finishes, polls report completed with "/audio_files/<id>.wav", and the same reply every time |

## Left out

- Speech synthesis and playback wrapping (`generate_audio`, `SAMPLE_RATE`, `Audio`, main.py:59-60): an opaque neural routine in a foreign library.
- The 16-bit buffer reinterpretation and channel-averaging downmix (main.py:62-65): numpy floating-point numerics. `np.frombuffer` always yields a one-dimensional array, so the downmix branch never runs.
- Building the WAV segment and exporting it to disk (main.py:70-72): file I/O and audio encoding. `GenerateAudioAsync` only returns the path the file is written to.
- The FastAPI application, CORS middleware, static mount and server start (main.py:17-29, main.py:101-102): HTTP plumbing. The mount appears only as the "/audio_files" URL prefix.
- Request validation by pydantic (main.py:32-45): framework behaviour. Only the response shapes are mirrored as datatypes.
- Background scheduling (main.py:82): the hand-off is recorded in the ghost list `scheduled`, and the worker runs as a separate sequential call. Concurrent access to the table and interleaving of workers are not modelled.
- GenerateAudioAsync: a task stays in `scheduled` after it runs, so the model lets one scheduled task complete any number of times, while the framework runs each background task once. This over-approximates the runs; the lemmas about the table hold for every history and so also for the ones that occur.
- PathJoin: only the POSIX behaviour of `os.path.join`; on Windows the separator is a backslash and the audio URL main.py:98 builds would be wrong.
- The randomness of `random.choices` (main.py:51): the draws are a parameter, so the model says nothing about collision probability.
- The lookup's implicit fall-through when the stored value is neither "pending" nor "completed" (main.py:96): the table's value type has only those two values, so that path cannot occur.
- A failed synthesis leaves the job pending forever. There is no failure state in the code, and none in the model.
