/** The doctor's queue page (doctor-queue.component): the patient currently
    in consultation, calling the next patient, completing a consultation, and
    the tag texts and colours of the queue table. */
module DoctorQueuePage {
  import opened Common
  import opened Models
  import opened DataSync
  import opened OpdRepo
  import opened OpdQueue
  import opened Opd

  /** `getStatusSeverity(status)`. */
  function StatusSeverity(status: TokenStatus): (r: string)
    ensures r == "warning" <==> status == TokenStatus.CheckedIn
    ensures r == "info" <==> status == TokenStatus.InConsultation
    ensures r == "success" <==> status == TokenStatus.Completed
    ensures r == "danger" <==> status == TokenStatus.Cancelled
  {
    match status
    case CheckedIn => "warning"
    case InConsultation => "info"
    case Completed => "success"
    case _ => "danger"
  }

  /** `getPrioritySeverity(priority)`. */
  function PrioritySeverity(priority: Priority): (r: string)
    ensures r == "danger" <==> priority == Urgent
    ensures r == "warning" <==> priority == High
    ensures r == "info" <==> priority == Normal
  {
    match priority
    case Urgent => "danger"
    case High => "warning"
    case _ => "info"
  }

  /** `getPriorityLabel(priority)`: the names the priority filter offers. */
  function PriorityLabel(priority: Priority): (r: string)
    ensures r == "Emergency" <==> priority == Urgent
    ensures r == "High" <==> priority == High
    ensures r == "Normal" <==> priority == Normal
  {
    match priority
    case Urgent => "Emergency"
    case High => "High"
    case _ => "Normal"
  }

  /** Each priority has a label of its own, and a colour of its own. */
  lemma PriorityTagsDistinct(a: Priority, b: Priority)
    ensures PriorityLabel(a) == PriorityLabel(b) <==> a == b
    ensures PrioritySeverity(a) == PrioritySeverity(b) <==> Rank(a) == Rank(b)
  {
  }

  predicate InConsultationNow(t: OpdToken)
  {
    t.status == TokenStatus.InConsultation
  }

  /** Whether some token of the queue has this id. */
  predicate Listed(queue: seq<OpdToken>, id: string)
  {
    exists i :: 0 <= i < |queue| && queue[i].id == id
  }

  class DoctorQueueComponent {
    var currentToken: Option<OpdToken>
    var showConsultationDialog: bool
    var diagnosis: string
    var notes: string
    const opdService: OpdService

    constructor(opdService: OpdService)
      ensures currentToken.None? && !showConsultationDialog && diagnosis == "" && notes == ""
      ensures this.opdService == opdService
    {
      currentToken := None;
      showConsultationDialog := false;
      diagnosis := "";
      notes := "";
      this.opdService := opdService;
    }

    /** The `tap` on every queue emission: a token in consultation becomes the
        current one; otherwise a current token that left the queue is dropped.
        Afterwards the current token, if any, is listed in the queue. */
    method SyncQueue(queue: seq<OpdToken>)
      modifies this`currentToken
      ensures Find(queue, InConsultationNow).Some? ==> currentToken == Find(queue, InConsultationNow)
      ensures Find(queue, InConsultationNow).None? ==>
        currentToken == (if old(currentToken).Some? && !Listed(queue, old(currentToken).value.id) then None
                         else old(currentToken))
      ensures currentToken.Some? ==> Listed(queue, currentToken.value.id)
    {
      var inConsultation := Find(queue, InConsultationNow);
      if inConsultation.Some? {
        assert inConsultation.value in queue;
        currentToken := inConsultation;
      } else if currentToken.Some? {
        var id := currentToken.value.id;
        if Find(queue, IdIs(id)).None? {
          currentToken := None;
        }
      }
    }

    /** `callNext(token)`: while a consultation is running nothing happens;
        otherwise the token is moved to IN_CONSULTATION and becomes current. */
    method CallNext(token: OpdToken, now: Instant, accepted: bool)
      modifies this`currentToken, opdService`tokens, opdService.repo.store`items, opdService.repo.store`events
      ensures old(currentToken).Some? ==>
        currentToken == old(currentToken) && opdService.tokens == old(opdService.tokens) && unchanged(opdService.repo.store)
      ensures old(currentToken).None? ==> currentToken == Some(token)
      ensures old(currentToken).None? ==>
        var k := FindIndex(old(opdService.tokens), IdIs(token.id));
        && (k == -1 ==> opdService.tokens == old(opdService.tokens) && unchanged(opdService.repo.store))
        && (k != -1 ==> opdService.tokens == old(opdService.tokens)[k := WithStatus(old(opdService.tokens)[k], TokenStatus.InConsultation, None, now)]
                        && opdService.tokens[k].status == TokenStatus.InConsultation
                        && opdService.repo.store.Wrote(TokensKey, TokenList(opdService.tokens), accepted)
                        && opdService.repo.GetTokens() == (if accepted then opdService.tokens else old(opdService.repo.GetTokens())))
      ensures opdService.repo.GetVisits() == old(opdService.repo.GetVisits())
    {
      if currentToken.Some? {
        return;
      }
      opdService.UpdateTokenStatus(token.id, TokenStatus.InConsultation, None, now, accepted);
      currentToken := Some(token);
    }

    /** `completeConsultation()`: only with a current token. When the visit is
        recorded the page is reset: no current token, empty diagnosis and
        notes, dialog closed; when it fails the page stays as it was. */
    method CompleteConsultation(visitId: string, now: Instant, tokensAccepted: bool, visitAccepted: bool)
      modifies this`currentToken, this`diagnosis, this`notes, this`showConsultationDialog
      modifies opdService`tokens, opdService.repo.store`items, opdService.repo.store`events
      ensures old(currentToken).None? ==>
        && currentToken == old(currentToken) && diagnosis == old(diagnosis) && notes == old(notes)
        && showConsultationDialog == old(showConsultationDialog)
        && opdService.tokens == old(opdService.tokens) && unchanged(opdService.repo.store)
      ensures old(currentToken).Some? ==>
        var id := old(currentToken).value.id;
        var k := FindIndex(old(opdService.tokens), IdIs(id));
        && (k == -1 ==>
              && currentToken == old(currentToken) && diagnosis == old(diagnosis) && notes == old(notes)
              && showConsultationDialog == old(showConsultationDialog)
              && opdService.tokens == old(opdService.tokens) && unchanged(opdService.repo.store))
        && (k != -1 ==>
              && currentToken.None? && diagnosis == "" && notes == "" && !showConsultationDialog
              && opdService.tokens == old(opdService.tokens)[k := WithStatus(old(opdService.tokens)[k], TokenStatus.Completed, None, now)]
              && opdService.repo.GetTokens() == (if tokensAccepted then opdService.tokens else old(opdService.repo.GetTokens()))
              && opdService.repo.GetVisits()
                 == (if visitAccepted then old(opdService.repo.GetVisits()) + [VisitFor(old(opdService.tokens)[k], visitId, old(diagnosis), old(notes), now)]
                     else old(opdService.repo.GetVisits())))
    {
      if currentToken.Some? {
        var r, _ := opdService.CompleteVisit(currentToken.value.id, diagnosis, notes, visitId, now, tokensAccepted, visitAccepted);
        if r.Ok? {
          showConsultationDialog := false;
          currentToken := None;
          diagnosis := "";
          notes := "";
        }
      }
    }

    /** `openConsultationDialog(token)`. */
    method OpenConsultationDialog(token: OpdToken)
      modifies this`currentToken, this`showConsultationDialog
      ensures currentToken == Some(token) && showConsultationDialog
    {
      currentToken := Some(token);
      showConsultationDialog := true;
    }
  }
}
