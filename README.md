# Job store of the AI message API

This project models the in-memory job store of a small HTTP service that
forwards a user's prompt to a chat-completion model and records each
prompt/response exchange as a *job*. The store is a module-level list of jobs;
three request handlers use it:

- **create** (`POST /messages`): call the upstream model with the request's
  content and model; on success build a job whose id is `str(len(jobs) + 1)`,
  whose status is `"completed"`, which echoes the request and carries the
  reply's first choice as its response, append it and return it; any exception
  on the way becomes an HTTP 500 error carrying the exception's text, and
  nothing is appended;
- **list** (`GET /jobs`): return the whole list;
- **get** (`GET /jobs/{id}`): scan for the first job with that id, or raise an
  HTTP 404 "Job not found".

Layout:

- `Wrappers.dfy` — `Option` and `Result`.
- `Decimal.dfy` — `NatToDecimal`, Python's `str` on a non-negative integer, its
  inverse `DecimalValue`, both round trips and injectivity.
- `JobStore.dfy` — the records (`Job`, `MessageRequest`), the upstream reply as
  an input (`Reply`), the handlers on the store's value (`AfterCreate`,
  `Lookup`, `Run` for a sequence of creates), the `Store` class whose methods
  update the list in place, and the lemmas about ids and lookups.

The store invariant `WellFormed` says that the job at position i has id
`str(i + 1)` and status `"completed"`. Every create keeps it; from it follow
distinct ids, a lookup that succeeds exactly for `"1"` .. `"n"`, and a lookup
that returns the very job the create with that id returned.

The service's broader description also mentions randomly generated
`llmjobid:` ids, persistence of the store to a file, image attachments with a
vision-model override, and a model-capability table. None of these is in
`main.py`, whose ids are sequential decimal strings; the model follows the
code.

## Model

| member | source | states |
|---|---|---|
| Decimal.NatToDecimal | main.py:59 | `str(n)` is non-empty, all digits, with no leading zero unless it is "0"; a positive n does not start with '0' |
| Decimal.ValueOfDecimal | main.py:59 | reading back the rendering of n gives n |
| Decimal.DecimalOfValue | main.py:59 | every canonical digit string is the rendering of the number it denotes |
| Decimal.NatToDecimalInjective | main.py:59 | distinct numbers render to distinct strings, so ids minted from distinct store lengths differ |
| JobStore.Request | main.py:36-38 | the request keeps its content, and its model is the client's or "gpt-3.5-turbo" when none was given |
| JobStore.AfterCreate | main.py:48-72 | create succeeds iff the upstream reply has a first choice carrying text; then exactly one job is appended at the end, with id str(old length + 1), status "completed", the request's content and model, the reply text and the timestamp; otherwise the store is unchanged and the error is a 500 carrying the exception text; well-formedness is kept |
| JobStore.IndexOf | main.py:80 | the position found is the first one whose job has the id; none is found only when no job has it |
| JobStore.Lookup | main.py:78-83 | get returns a stored job with the requested id, and fails exactly when no job has that id, with 404 "Job not found" |
| JobStore.Store.constructor | main.py:22 | the store starts empty and well-formed |
| JobStore.Store.Create | main.py:48-72 | the new list and the result are those of AfterCreate on the old list; the old list is a prefix of the new one; the invariant is kept |
| JobStore.Store.List | main.py:74-76 | returns the entire list in insertion order and changes nothing |
| JobStore.Store.Get | main.py:78-83 | the linear scan returns what Lookup specifies (first match, or 404) and changes nothing |
| JobStore.IdsDistinct | main.py:59-68 | in a well-formed store any two jobs have different ids |
| JobStore.LookupIssued | main.py:80-83 | in a well-formed store of n jobs, getting str(k) for 1 <= k <= n returns the k-th job |
| JobStore.LookupFoundIff | main.py:80-82 | in a well-formed store of n jobs, get succeeds exactly for canonical decimal ids whose value is in 1..n; every other id is not found |
| JobStore.RunAppendOnly | main.py:68 | after any sequence of creates, successful or not, the earlier store is a prefix of the later one and stays well-formed |
| JobStore.RunAllSucceed | main.py:58-68 | when every upstream call succeeds, n creates add n jobs in call order, the i-th echoing the i-th call with id str(start + i + 1), and the earlier jobs are unchanged |
| JobStore.SequentialIds | main.py:59-68 | from the empty store, n successful creates give exactly n jobs with ids "1" .. "n" in call order |
| JobStore.LookupReturnsCreated | main.py:59-83 | the job a successful create returned is what get returns for its id after any later creates |

## Left out

- The chat-completion call to the upstream provider (main.py:52-55) is a network call; its outcome is the `Reply` parameter (an exception text, or the list of choices).
- `datetime.now()` (main.py:63) reads the clock; the timestamp is a parameter and never inspected.
- AfterCreate: the detail texts for a completion without choices and for a first choice without text stand for Python's `IndexError` and the record validation error; the exact validation message text is not modelled.
- Loading the API key with dotenv and os (main.py:10-13) and starting the server with uvicorn (main.py:85-87) are process set-up.
- The FastAPI routing, the response-model serialisation and the pydantic field validation other than the default model (main.py:15-19, 36-46), and the static welcome banner (main.py:24-34), hold no store logic.
- Concurrent async handlers interleaving on the shared list are not modelled; the operations run one at a time.
