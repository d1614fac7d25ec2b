/**
 * The problem service as the code-manage service sees it over gRPC (`IGrpcProblemService`):
 * a catalogue it reads problems from, and the submissions it is asked to create and update.
 */
module ProblemClient {
  import opened Wrappers
  import opened Dtos

  /** The problem stored under an id, if any. */
  function CatalogueEntry(catalogue: map<string, Problem>, id: string): Option<Problem> {
    if id in catalogue then Some(catalogue[id]) else None
  }

  class ProblemClient {
    var catalogue: map<string, Problem>
    var created: seq<CreateSubmissionRequest>
    var updates: seq<UpdateSubmissionRequest>
    /** The ids `getProblem` was asked for, in order. */
    var lookups: seq<string>

    constructor (catalogue: map<string, Problem>)
      ensures this.catalogue == catalogue && created == [] && updates == [] && lookups == []
    {
      this.catalogue := catalogue;
      created := [];
      updates := [];
      lookups := [];
    }

    /** `getProblem({Id})`: `None` is the `null` answer for an unknown id. */
    method GetProblem(id: string) returns (p: Option<Problem>)
      modifies this
      ensures p == CatalogueEntry(catalogue, id)
      ensures lookups == old(lookups) + [id]
      ensures catalogue == old(catalogue) && created == old(created) && updates == old(updates)
    {
      lookups := lookups + [id];
      p := CatalogueEntry(catalogue, id);
    }

    /** `createSubmission`: records the request; the id the service assigns is a parameter. */
    method CreateSubmission(request: CreateSubmissionRequest, assignedId: string) returns (s: Submission)
      modifies this
      ensures s == Submission(assignedId)
      ensures created == old(created) + [request]
      ensures catalogue == old(catalogue) && updates == old(updates) && lookups == old(lookups)
    {
      created := created + [request];
      s := Submission(assignedId);
    }

    /** `updateSubmission`; when `fails` the call throws and nothing is recorded. */
    method UpdateSubmission(request: UpdateSubmissionRequest, fails: bool) returns (ok: bool)
      modifies this
      ensures ok == !fails
      ensures updates == if ok then old(updates) + [request] else old(updates)
      ensures catalogue == old(catalogue) && created == old(created) && lookups == old(lookups)
    {
      ok := !fails;
      if ok {
        updates := updates + [request];
      }
    }
  }
}
