/** The in-memory job store of the message API: the module-level `jobs`
    list, the create handler that calls the upstream model and appends a job,
    and the two read handlers that list the store or look one job up by id. */
module JobStore {
  import opened Wrappers
  import opened Decimal

  /** The wall-clock reading stamped on a job. Its value is never inspected. */
  datatype Timestamp = Timestamp(micros: int)

  /** A stored prompt/response exchange. */
  datatype Job = Job(
    id: string,
    content: string,
    model: string,
    response: string,
    createdAt: Timestamp,
    status: string)

  /** The body of a create request. */
  datatype MessageRequest = MessageRequest(content: string, model: string)

  /** The error a handler raises, as the HTTP status code and detail text it carries. */
  datatype HttpError = HttpError(statusCode: int, detail: string)

  /** What the chat-completion call to the upstream model produced: either it
      raised (carrying the text of the exception), or it returned a completion
      whose choices each hold a message content that may be absent. */
  datatype Reply = Raised(detail: string) | Completion(choices: seq<Option<string>>)

  /** One call of the create handler, with the upstream reply and the clock
      reading it observed. */
  datatype CreateCall = CreateCall(request: MessageRequest, reply: Reply, at: Timestamp)

  const DefaultModel: string := "gpt-3.5-turbo"
  const CompletedStatus: string := "completed"
  const NotFound: HttpError := HttpError(404, "Job not found")
  /** Detail of the exception raised when the completion has no choices. */
  const NoChoiceDetail: string := "list index out of range"
  /** Detail of the exception raised when the first choice carries no text,
      which the `Job` record refuses as its response. */
  const NoContentDetail: string := "1 validation error for Job\nresponse\n  Input should be a valid string"

  /** A create request as the request parser builds it: the model defaults
      to "gpt-3.5-turbo" when the client gives none. */
  function Request(content: string, model: Option<string>): (r: MessageRequest)
    ensures r.content == content
    ensures model.Some? ==> r.model == model.value
    ensures model.None? ==> r.model == DefaultModel
  {
    MessageRequest(content, if model.Some? then model.value else DefaultModel)
  }

  /** The upstream call produced a usable reply: at least one choice, and the
      first one carries text. */
  predicate Succeeds(reply: Reply)
  {
    reply.Completion? && |reply.choices| > 0 && reply.choices[0].Some?
  }

  /** `job` is the job a successful create call mints as the store's n-th
      entry: id str(n), status "completed", the request's content and model,
      the reply's first choice as its response, and the call's timestamp. */
  predicate Describes(job: Job, n: nat, call: CreateCall)
  {
    && Succeeds(call.reply)
    && job.id == NatToDecimal(n)
    && job.status == CompletedStatus
    && job.content == call.request.content
    && job.model == call.request.model
    && job.response == call.reply.choices[0].value
    && job.createdAt == call.at
  }

  /** The store invariant: the job at position i has id str(i + 1) and is completed. */
  ghost predicate WellFormed(jobs: seq<Job>)
  {
    forall i :: 0 <= i < |jobs| ==> jobs[i].id == NatToDecimal(i + 1) && jobs[i].status == CompletedStatus
  }

  /** The create handler on the store's value: the new store and the handler's outcome. */
  function AfterCreate(jobs: seq<Job>, request: MessageRequest, reply: Reply, at: Timestamp)
    : (r: (seq<Job>, Result<Job, HttpError>))
    ensures r.1.Success? <==> Succeeds(reply)
    ensures r.1.Success? ==>
      && r.0 == jobs + [r.1.value]
      && Describes(r.1.value, |jobs| + 1, CreateCall(request, reply, at))
    ensures r.1.Failure? ==> r.0 == jobs && r.1.error.statusCode == 500
    ensures reply.Raised? ==> r.1.error.detail == reply.detail
    ensures WellFormed(jobs) ==> WellFormed(r.0)
  {
    match reply
    case Raised(detail) => (jobs, Failure(HttpError(500, detail)))
    case Completion(choices) =>
      if |choices| == 0 then (jobs, Failure(HttpError(500, NoChoiceDetail)))
      else match choices[0]
        case None => (jobs, Failure(HttpError(500, NoContentDetail)))
        case Some(text) =>
          var job := Job(NatToDecimal(|jobs| + 1), request.content, request.model, text, at, CompletedStatus);
          (jobs + [job], Success(job))
  }

  /** The position of the first job whose id is `id`, if any. */
  function IndexOf(jobs: seq<Job>, id: string): (r: Option<nat>)
    ensures r.Some? ==> r.value < |jobs| && jobs[r.value].id == id
    ensures r.Some? ==> forall j :: 0 <= j < r.value ==> jobs[j].id != id
    ensures r.None? ==> forall j :: 0 <= j < |jobs| ==> jobs[j].id != id
    decreases |jobs|
  {
    if |jobs| == 0 then None
    else if jobs[0].id == id then Some(0)
    else match IndexOf(jobs[1..], id)
      case None => None
      case Some(k) => Some(k + 1)
  }

  /** The read handler for one job on the store's value: the first job with
      the id, or the 404 error. */
  function Lookup(jobs: seq<Job>, id: string): (r: Result<Job, HttpError>)
    ensures r.Success? ==> exists i :: 0 <= i < |jobs| && jobs[i] == r.value && r.value.id == id
    ensures r.Failure? <==> forall j :: 0 <= j < |jobs| ==> jobs[j].id != id
    ensures r.Failure? ==> r.error == NotFound
  {
    match IndexOf(jobs, id)
    case Some(i) => Success(jobs[i])
    case None => Failure(NotFound)
  }

  /** The store after a sequence of create calls, in order. */
  function Run(jobs: seq<Job>, calls: seq<CreateCall>): seq<Job>
    decreases |calls|
  {
    if |calls| == 0 then jobs
    else Run(AfterCreate(jobs, calls[0].request, calls[0].reply, calls[0].at).0, calls[1..])
  }

  /** The module-level job list and the three handlers that use it. */
  class Store {
    var jobs: seq<Job>

    ghost predicate Valid()
      reads this
    {
      WellFormed(jobs)
    }

    /** The list as the process starts: empty. */
    constructor ()
      ensures Valid() && jobs == []
    {
      jobs := [];
    }

    /** POST /messages, given what the upstream call produced and the clock
        reading. The new job is appended in place; on any failure nothing is. */
    method Create(request: MessageRequest, reply: Reply, at: Timestamp) returns (r: Result<Job, HttpError>)
      requires Valid()
      modifies this
      ensures Valid()
      ensures (jobs, r) == AfterCreate(old(jobs), request, reply, at)
      ensures old(jobs) <= jobs
    {
      match reply {
        case Raised(detail) =>
          r := Failure(HttpError(500, detail));
        case Completion(choices) =>
          if |choices| == 0 {
            r := Failure(HttpError(500, NoChoiceDetail));
          } else if choices[0].None? {
            r := Failure(HttpError(500, NoContentDetail));
          } else {
            var job := Job(NatToDecimal(|jobs| + 1), request.content, request.model,
                           choices[0].value, at, CompletedStatus);
            jobs := jobs + [job];
            r := Success(job);
          }
      }
    }

    /** GET /jobs: the whole store, in insertion order; nothing changes. */
    method List() returns (r: seq<Job>)
      ensures r == jobs
    {
      r := jobs;
    }

    /** GET /jobs/{id}: a linear scan for the first job with the id; 404 when
        there is none. Nothing changes. */
    method Get(id: string) returns (r: Result<Job, HttpError>)
      ensures r == Lookup(jobs, id)
    {
      var i := 0;
      while i < |jobs|
        invariant 0 <= i <= |jobs|
        invariant forall j :: 0 <= j < i ==> jobs[j].id != id
      {
        if jobs[i].id == id {
          return Success(jobs[i]);
        }
        i := i + 1;
      }
      return Failure(NotFound);
    }
  }

  /** Ids in a well-formed store are pairwise distinct. */
  lemma IdsDistinct(jobs: seq<Job>, i: nat, j: nat)
    requires WellFormed(jobs)
    requires i < j < |jobs|
    ensures jobs[i].id != jobs[j].id
  {
    if jobs[i].id == jobs[j].id {
      NatToDecimalInjective(i + 1, j + 1);
    }
  }

  /** In a well-formed store, looking up str(k) for 1 <= k <= n finds the k-th job. */
  lemma LookupIssued(jobs: seq<Job>, k: nat)
    requires WellFormed(jobs)
    requires 1 <= k <= |jobs|
    ensures Lookup(jobs, NatToDecimal(k)) == Success(jobs[k - 1])
  {
    var id := NatToDecimal(k);
    match IndexOf(jobs, id)
    case None =>
    case Some(i) =>
      if i != k - 1 {
        NatToDecimalInjective(i + 1, k);
      }
  }

  /** In a well-formed store of n jobs, a lookup succeeds exactly for the
      ids "1" .. "n" as str renders them; every other string is not found. */
  lemma LookupFoundIff(jobs: seq<Job>, id: string)
    requires WellFormed(jobs)
    ensures Lookup(jobs, id).Success? <==> IsCanonical(id) && 1 <= DecimalValue(id) <= |jobs|
  {
    if Lookup(jobs, id).Success? {
      var i := IndexOf(jobs, id).value;
      ValueOfDecimal(i + 1);
    }
    if IsCanonical(id) && 1 <= DecimalValue(id) <= |jobs| {
      DecimalOfValue(id);
      LookupIssued(jobs, DecimalValue(id));
    }
  }

  /** Creates only ever append: the store before is a prefix of the store
      after any sequence of creates, and well-formedness is kept. */
  lemma {:induction false} RunAppendOnly(jobs: seq<Job>, calls: seq<CreateCall>)
    requires WellFormed(jobs)
    ensures jobs <= Run(jobs, calls)
    ensures WellFormed(Run(jobs, calls))
    decreases |calls|
  {
    if |calls| > 0 {
      var next := AfterCreate(jobs, calls[0].request, calls[0].reply, calls[0].at).0;
      RunAppendOnly(next, calls[1..]);
    }
  }

  /** When every upstream call succeeds, each create appends one job, in call
      order: the job for the i-th call is the one that call describes, with
      id str(n + i + 1), where n is the starting size. */
  lemma {:induction false} RunAllSucceed(jobs: seq<Job>, calls: seq<CreateCall>, i: nat)
    requires forall k :: 0 <= k < |calls| ==> Succeeds(calls[k].reply)
    requires i < |calls|
    ensures |Run(jobs, calls)| == |jobs| + |calls|
    ensures Run(jobs, calls)[..|jobs|] == jobs
    ensures Describes(Run(jobs, calls)[|jobs| + i], |jobs| + i + 1, calls[i])
    decreases |calls|
  {
    var next := AfterCreate(jobs, calls[0].request, calls[0].reply, calls[0].at).0;
    assert |next| == |jobs| + 1;
    if |calls| == 1 {
      assert Run(next, calls[1..]) == next;
    } else {
      RunAllSucceed(next, calls[1..], if i == 0 then 0 else i - 1);
      if i > 0 {
        assert calls[1..][i - 1] == calls[i];
      } else {
        assert Run(next, calls[1..])[..|next|] == next;
        assert Run(next, calls[1..])[|jobs|] == next[|jobs|];
      }
      assert Run(next, calls[1..])[..|next|][..|jobs|] == jobs;
    }
  }

  /** Starting from the empty store, n successful creates give the store
      exactly n jobs, with ids "1" .. "n", in the order of the calls. */
  lemma SequentialIds(calls: seq<CreateCall>)
    requires forall k :: 0 <= k < |calls| ==> Succeeds(calls[k].reply)
    ensures |Run([], calls)| == |calls|
    ensures forall i :: 0 <= i < |calls| ==> Describes(Run([], calls)[i], i + 1, calls[i])
  {
    if |calls| == 0 {
    } else {
      RunAllSucceed([], calls, 0);
      forall i | 0 <= i < |calls|
        ensures Describes(Run([], calls)[i], i + 1, calls[i])
      {
        RunAllSucceed([], calls, i);
      }
    }
  }

  /** A job returned by a successful create is what a later lookup of its id
      returns, however many creates came in between. */
  lemma LookupReturnsCreated(jobs: seq<Job>, call: CreateCall, later: seq<CreateCall>)
    requires WellFormed(jobs)
    requires Succeeds(call.reply)
    ensures
      var (next, r) := AfterCreate(jobs, call.request, call.reply, call.at);
      Lookup(Run(next, later), r.value.id) == Success(r.value)
  {
    var (next, r) := AfterCreate(jobs, call.request, call.reply, call.at);
    RunAppendOnly(next, later);
    var final := Run(next, later);
    assert final[|jobs|] == next[|jobs|] == r.value;
    LookupIssued(final, |jobs| + 1);
  }
}
