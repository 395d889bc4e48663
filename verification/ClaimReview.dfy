/** The claim review workspace: which claim is shown, the reviewer capability
    check, and the three pieces of local state (extracted fields, corrections,
    expanded agent panels) that the handlers replace. */
module ClaimReview {
  import opened Wrappers
  import opened ClaimTypes
  import opened Seqs

  /** `claims.find(c => c.id === id)`, as the position of the first match. */
  function FindClaimIndex(claims: seq<Claim>, id: string): (r: Option<nat>)
    ensures r.Some? ==> r.value < |claims| && claims[r.value].id == id
    ensures r.Some? ==> forall j :: 0 <= j < r.value ==> claims[j].id != id
    ensures r.None? ==> forall j :: 0 <= j < |claims| ==> claims[j].id != id
  {
    if claims == [] then None
    else if claims[0].id == id then Some(0)
    else
      match FindClaimIndex(claims[1..], id)
      case None => None
      case Some(k) => Some(k + 1)
  }

  /** The claim under review: the first one with the requested id, or the
      first claim of the list when none has it. */
  function ClaimToReview(claims: seq<Claim>, id: string): (c: Claim)
    requires |claims| > 0
    ensures c in claims
    ensures (exists i :: 0 <= i < |claims| && claims[i].id == id) ==> c.id == id
    ensures (forall i :: 0 <= i < |claims| ==> claims[i].id != id) ==> c == claims[0]
    ensures FindClaimIndex(claims, id).Some? ==> c == claims[FindClaimIndex(claims, id).value]
  {
    match FindClaimIndex(claims, id)
    case Some(i) => claims[i]
    case None => claims[0]
  }

  /** The capability check behind both kinds of edit: adjusters and admins
      review, customers and visitors without a session do not. */
  function IsReviewer(user: Option<User>): (b: bool)
    ensures b <==> user.Some? && user.value.role != Customer
  {
    user.Some? && (user.value.role == Adjuster || user.value.role == Admin)
  }

  // Corrections

  datatype CorrectionAction = Approve | Reject | Edit

  /** The status an action sets: edit puts a correction back to pending, and no action yields `edited`. */
  function ResultingStatus(action: CorrectionAction): (st: CorrectionStatus)
    ensures st != CorrectionEdited
    ensures st == CorrectionApproved <==> action == Approve
    ensures st == CorrectionRejected <==> action == Reject
    ensures st == CorrectionPending <==> action == Edit
  {
    match action
    case Edit => CorrectionPending
    case Approve => CorrectionApproved
    case Reject => CorrectionRejected
  }

  /** `prev.map(c => c.id === id ? { ...c, status } : c)`: every correction
      with the id gets the action's status and nothing else changes. */
  function ApplyCorrectionAction(cs: seq<CAGCorrection>, id: string, action: CorrectionAction): (r: seq<CAGCorrection>)
    ensures |r| == |cs|
    ensures forall i :: 0 <= i < |cs| && cs[i].id == id ==> r[i] == cs[i].(status := ResultingStatus(action))
    ensures forall i :: 0 <= i < |cs| && cs[i].id != id ==> r[i] == cs[i]
  {
    if cs == [] then []
    else
      var c := cs[0];
      var head := if c.id == id then c.(status := ResultingStatus(action)) else c;
      [head] + ApplyCorrectionAction(cs[1..], id, action)
  }

  /** Only the status of a matched correction moves: ids, fields, issues and both values are kept. */
  lemma CorrectionActionKeepsContent(cs: seq<CAGCorrection>, id: string, action: CorrectionAction, i: nat)
    requires i < |cs|
    ensures var r := ApplyCorrectionAction(cs, id, action);
      r[i].id == cs[i].id && r[i].field == cs[i].field && r[i].issue == cs[i].issue
      && r[i].suggestedValue == cs[i].suggestedValue && r[i].originalValue == cs[i].originalValue
  {
  }

  /** An id that matches no correction leaves the list as it was. */
  lemma UnknownCorrectionIdIsNoOp(cs: seq<CAGCorrection>, id: string, action: CorrectionAction)
    requires forall i :: 0 <= i < |cs| ==> cs[i].id != id
    ensures ApplyCorrectionAction(cs, id, action) == cs
  {
  }

  /** Of two actions on the same id the later one wins; in particular repeating an action changes nothing. */
  lemma LaterCorrectionActionWins(cs: seq<CAGCorrection>, id: string, first: CorrectionAction, second: CorrectionAction)
    ensures ApplyCorrectionAction(ApplyCorrectionAction(cs, id, first), id, second) == ApplyCorrectionAction(cs, id, second)
  {
  }

  lemma CorrectionActionIdempotent(cs: seq<CAGCorrection>, id: string, action: CorrectionAction)
    ensures ApplyCorrectionAction(ApplyCorrectionAction(cs, id, action), id, action) == ApplyCorrectionAction(cs, id, action)
  {
    LaterCorrectionActionWins(cs, id, action, action);
  }

  predicate UniqueIds(cs: seq<CAGCorrection>) {
    forall i, j :: 0 <= i < j < |cs| ==> cs[i].id != cs[j].id
  }

  /** The buttons of a correction are shown to a reviewer, and only while it is pending. */
  predicate CanActOn(user: Option<User>, c: CAGCorrection)
    ensures CanActOn(user, c) <==> user.Some? && user.value.role in {Adjuster, Admin} && c.status == CorrectionPending
  {
    IsReviewer(user) && c.status == CorrectionPending
  }

  /** With distinct ids, acting through the buttons of a pending correction
      never touches an approved or rejected one. */
  lemma DecidedCorrectionsStay(cs: seq<CAGCorrection>, k: nat, action: CorrectionAction)
    requires UniqueIds(cs) && k < |cs| && cs[k].status == CorrectionPending
    ensures forall i :: 0 <= i < |cs| && cs[i].status in {CorrectionApproved, CorrectionRejected} ==>
      ApplyCorrectionAction(cs, cs[k].id, action)[i] == cs[i]
  {
    forall i | 0 <= i < |cs| && cs[i].status in {CorrectionApproved, CorrectionRejected}
      ensures ApplyCorrectionAction(cs, cs[k].id, action)[i] == cs[i]
    {
      assert i != k;
      assert cs[i].id != cs[k].id by {
        if i < k {} else {}
      }
    }
  }

  // Extracted fields

  /** `updated[index] = { ...updated[index], value }`: only the value of that field changes. */
  function EditField(fields: seq<ExtractedField>, index: nat, value: string): (r: seq<ExtractedField>)
    requires index < |fields|
    ensures |r| == |fields|
    ensures r[index].value == value
    ensures r[index].field == fields[index].field && r[index].confidence == fields[index].confidence
    ensures r[index].editable == fields[index].editable
    ensures forall j :: 0 <= j < |fields| && j != index ==> r[j] == fields[j]
  {
    fields[index := fields[index].(value := value)]
  }

  /** Editing a field twice keeps the last value, and re-entering the current value changes nothing. */
  lemma EditFieldLastWins(fields: seq<ExtractedField>, index: nat, first: string, second: string)
    requires index < |fields|
    ensures EditField(EditField(fields, index, first), index, second) == EditField(fields, index, second)
    ensures EditField(fields, index, fields[index].value) == fields
  {
  }

  /** The input of a field is shown to a reviewer, and only for an editable field. */
  predicate CanEditField(user: Option<User>, f: ExtractedField)
    ensures CanEditField(user, f) <==> user.Some? && user.value.role in {Adjuster, Admin} && f.editable == Some(true)
  {
    IsReviewer(user) && f.editable == Some(true)
  }

  // Agent panels

  const AllAgents: seq<AgentKind> := [ClaimsAgent, VerifierAgent, CagAgent, SupervisorAgent]

  /** `prev.includes(agent) ? prev.filter(a => a !== agent) : [...prev, agent]`:
      flips the agent's membership and no other agent's. */
  function ToggleAgent(expanded: seq<AgentKind>, agent: AgentKind): (r: seq<AgentKind>)
    ensures agent in r <==> agent !in expanded
    ensures forall other :: other != agent ==> (other in r <==> other in expanded)
  {
    if agent in expanded then
      var r := Filter(expanded, a => a != agent);
      assert forall other :: other in r ==> other in expanded;
      r
    else expanded + [agent]
  }

  /** Toggling keeps the list free of repeats. */
  lemma ToggleAgentNoDuplicates(expanded: seq<AgentKind>, agent: AgentKind)
    requires NoDuplicates(expanded)
    ensures NoDuplicates(ToggleAgent(expanded, agent))
  {
    if agent in expanded {
      FilterNoDuplicates(expanded, a => a != agent);
    }
  }

  /** Toggling twice restores every agent's membership. */
  lemma ToggleAgentTwice(expanded: seq<AgentKind>, agent: AgentKind, other: AgentKind)
    ensures other in ToggleAgent(ToggleAgent(expanded, agent), agent) <==> other in expanded
  {
  }

  // Message grouping

  /** The messages of one agent, in their original order. */
  function FromAgent(msgs: seq<AgentMessage>, agent: AgentKind): (r: seq<AgentMessage>)
    ensures |r| <= |msgs|
    ensures forall i :: 0 <= i < |r| ==> r[i].agent == agent && r[i] in msgs
    ensures forall i :: 0 <= i < |msgs| && msgs[i].agent == agent ==> msgs[i] in r
  {
    if msgs == [] then []
    else
      var last := msgs[|msgs| - 1];
      var init := msgs[..|msgs| - 1];
      var front := FromAgent(init, agent);
      assert forall i :: 0 <= i < |front| ==> front[i] in init;
      assert forall i :: 0 <= i < |init| ==> init[i] == msgs[i];
      if last.agent == agent then front + [last] else front
  }

  /** Every message lands in exactly one group, so the group sizes add up to the message count. */
  lemma {:induction false} GroupSizesSum(msgs: seq<AgentMessage>)
    ensures |FromAgent(msgs, ClaimsAgent)| + |FromAgent(msgs, VerifierAgent)|
            + |FromAgent(msgs, CagAgent)| + |FromAgent(msgs, SupervisorAgent)| == |msgs|
  {
    if msgs != [] {
      GroupSizesSum(msgs[..|msgs| - 1]);
    }
  }

  /** Grouping keeps order: the group of a concatenation is the concatenation of the groups. */
  lemma {:induction false} FromAgentAppend(front: seq<AgentMessage>, back: seq<AgentMessage>, agent: AgentKind)
    ensures FromAgent(front + back, agent) == FromAgent(front, agent) + FromAgent(back, agent)
  {
    if back == [] {
      assert front + back == front;
    } else {
      var all := front + back;
      var init := back[..|back| - 1];
      assert all[..|all| - 1] == front + init;
      assert all[|all| - 1] == back[|back| - 1];
      FromAgentAppend(front, init, agent);
      assert FromAgent(all, agent) == FromAgent(front + init, agent) + (if back[|back| - 1].agent == agent then [back[|back| - 1]] else []);
      assert FromAgent(back, agent) == FromAgent(init, agent) + (if back[|back| - 1].agent == agent then [back[|back| - 1]] else []);
    }
  }

  /** The reduce over the messages: a group per agent that has messages,
      holding that agent's messages in order. */
  method GroupMessages(msgs: seq<AgentMessage>) returns (groups: map<AgentKind, seq<AgentMessage>>)
    ensures forall agent :: agent in groups <==> FromAgent(msgs, agent) != []
    ensures forall agent :: agent in groups ==> groups[agent] == FromAgent(msgs, agent)
  {
    groups := map[];
    var i := 0;
    while i < |msgs|
      invariant 0 <= i <= |msgs|
      invariant forall agent :: agent in groups <==> FromAgent(msgs[..i], agent) != []
      invariant forall agent :: agent in groups ==> groups[agent] == FromAgent(msgs[..i], agent)
    {
      var msg := msgs[i];
      if msg.agent !in groups {
        groups := groups[msg.agent := []];
      }
      groups := groups[msg.agent := groups[msg.agent] + [msg]];
      assert msgs[..i + 1][..i] == msgs[..i];
      i := i + 1;
    }
    assert msgs[..i] == msgs;
  }

  // Notices

  datatype Toast = Toast(title: string, description: string)

  function ActionWord(action: CorrectionAction): string {
    match action
    case Approve => "approve"
    case Reject => "reject"
    case Edit => "edit"
  }

  /** The correction notice as the handler builds it: the action word with "ed" appended. */
  function CorrectionToastAsWritten(action: CorrectionAction): (t: Toast)
    ensures t.title == "Correction " + ActionWord(action) + "ed"
  {
    Toast("Correction " + ActionWord(action) + "ed", "The suggested correction has been " + ActionWord(action) + "ed.")
  }

  /** Appending "ed" to "approve" spells "approveed", which does not name the status the correction gets. */
  lemma ApproveToastMisspelled()
    ensures CorrectionToastAsWritten(Approve).title == "Correction approveed"
    ensures CorrectionToastAsWritten(Approve).title != "Correction " + CorrectionStatusName(ResultingStatus(Approve))
  {
    assert ("Correction " + ActionWord(Approve) + "ed")[18] == 'e';
  }

  function PastTense(action: CorrectionAction): string {
    match action
    case Approve => "approved"
    case Reject => "rejected"
    case Edit => "edited"
  }

  /** The correction notice with the past tense spelled out. */
  function CorrectionToast(action: CorrectionAction): (t: Toast)
    ensures t.title == "Correction " + PastTense(action)
    ensures action != Edit ==> t.title == "Correction " + CorrectionStatusName(ResultingStatus(action))
  {
    Toast("Correction " + PastTense(action), "The suggested correction has been " + PastTense(action) + ".")
  }

  datatype FinalAction = ApproveClaim | RejectClaim | RequestMoreInfo

  /** The closing decision only picks a notice (and then goes back); it changes no data. */
  function FinalActionToast(action: FinalAction): (t: Toast)
    ensures action == ApproveClaim ==> t == Toast("Claim Approved", "Claim has been approved successfully")
    ensures action == RejectClaim ==> t == Toast("Claim Rejected", "Claim has been rejected")
    ensures action == RequestMoreInfo ==> t == Toast("Info Requested", "Request for more information has been sent")
  {
    var description := match action
      case ApproveClaim => "Claim has been approved successfully"
      case RejectClaim => "Claim has been rejected"
      case RequestMoreInfo => "Request for more information has been sent";
    var title := if action == ApproveClaim then "Claim Approved"
      else if action == RejectClaim then "Claim Rejected"
      else "Info Requested";
    Toast(title, description)
  }

  /** The three decisions are told apart by their notices. */
  lemma FinalActionToastsDistinct(a: FinalAction, b: FinalAction)
    requires a != b
    ensures FinalActionToast(a).title != FinalActionToast(b).title
  {
  }

  // The workspace

  class ReviewWorkspace {
    const claim: Claim
    var extractedFields: seq<ExtractedField>
    var corrections: seq<CAGCorrection>
    var expandedAgents: seq<AgentKind>

    /** Opening the view: the claim with the id (or the first claim), its
        optional lists read as empty when absent, and all four panels open. */
    constructor(claims: seq<Claim>, id: string)
      requires |claims| > 0
      ensures claim == ClaimToReview(claims, id)
      ensures extractedFields == FieldsOf(claim) && corrections == CorrectionsOf(claim)
      ensures expandedAgents == AllAgents
    {
      claim := ClaimToReview(claims, id);
      extractedFields := FieldsOf(ClaimToReview(claims, id));
      corrections := CorrectionsOf(ClaimToReview(claims, id));
      expandedAgents := AllAgents;
    }

    method HandleFieldEdit(index: nat, newValue: string)
      requires index < |extractedFields|
      modifies this
      ensures extractedFields == EditField(old(extractedFields), index, newValue)
      ensures corrections == old(corrections) && expandedAgents == old(expandedAgents)
    {
      var updated := extractedFields;
      updated := updated[index := updated[index].(value := newValue)];
      extractedFields := updated;
    }

    method HandleCorrectionAction(id: string, action: CorrectionAction) returns (toast: Toast)
      modifies this
      ensures corrections == ApplyCorrectionAction(old(corrections), id, action)
      ensures toast == CorrectionToast(action)
      ensures extractedFields == old(extractedFields) && expandedAgents == old(expandedAgents)
    {
      corrections := ApplyCorrectionAction(corrections, id, action);
      toast := CorrectionToast(action);
    }

    method ToggleAgentPanel(agent: AgentKind)
      modifies this
      ensures expandedAgents == ToggleAgent(old(expandedAgents), agent)
      ensures extractedFields == old(extractedFields) && corrections == old(corrections)
    {
      expandedAgents := ToggleAgent(expandedAgents, agent);
    }

    /** Typing into field `index` as `user`: the input exists only for a
        reviewer on an editable field, otherwise nothing changes. */
    method EditFieldAs(user: Option<User>, index: nat, newValue: string) returns (applied: bool)
      requires index < |extractedFields|
      modifies this
      ensures applied <==> CanEditField(user, old(extractedFields)[index])
      ensures extractedFields == if applied then EditField(old(extractedFields), index, newValue) else old(extractedFields)
      ensures corrections == old(corrections) && expandedAgents == old(expandedAgents)
    {
      applied := CanEditField(user, extractedFields[index]);
      if applied {
        HandleFieldEdit(index, newValue);
      }
    }

    /** Pressing a button of the correction at position `k` as `user`: the
        buttons exist only for a reviewer while that correction is pending. */
    method ActOnCorrectionAs(user: Option<User>, k: nat, action: CorrectionAction) returns (applied: bool)
      requires k < |corrections|
      modifies this
      ensures applied <==> CanActOn(user, old(corrections)[k])
      ensures corrections == if applied then ApplyCorrectionAction(old(corrections), old(corrections)[k].id, action) else old(corrections)
      ensures extractedFields == old(extractedFields) && expandedAgents == old(expandedAgents)
    {
      applied := CanActOn(user, corrections[k]);
      if applied {
        var _ := HandleCorrectionAction(corrections[k].id, action);
      }
    }
  }
}
