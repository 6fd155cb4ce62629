/**
 * The records shared by the dashboard's pages: leads, chat messages, the
 * filter and sort options of the lead list, and what the AI services return.
 */
module Leads {
  import opened Wrappers

  /** A lead's temperature: hot, warm or cold. */
  datatype Status = Quente | Morno | Frio

  function StatusName(s: Status): string {
    match s
    case Quente => "quente"
    case Morno => "morno"
    case Frio => "frio"
  }

  /** The `z.enum(["quente", "morno", "frio"])` check: the status a string names, if any. */
  function ParseStatus(s: string): (r: Option<Status>)
    ensures r.Some? <==> s in {"quente", "morno", "frio"}
    ensures r.Some? ==> StatusName(r.value) == s
  {
    if s == "quente" then Some(Quente)
    else if s == "morno" then Some(Morno)
    else if s == "frio" then Some(Frio)
    else None
  }

  /** Naming a status and parsing the name gives the status back. */
  lemma StatusNameRoundTrip(s: Status)
    ensures ParseStatus(StatusName(s)) == Some(s)
  {
  }

  /**
   * A lead as the lead list stores it. `lastContact` and `history` are optional
   * because a lead promoted from prospecting arrives without them, and
   * `notes` is present only on such leads (the object spread keeps it).
   */
  datatype Lead = Lead(
    id: int,
    name: string,
    phone: string,
    score: int,
    status: Status,
    lastContact: Option<string>,
    interest: string,
    history: Option<string>,
    notes: Option<string>)

  /** A lead before the store gives it an id (`Omit<Lead, "id">`). */
  datatype LeadDraft = LeadDraft(
    name: string,
    phone: string,
    score: int,
    status: Status,
    lastContact: Option<string>,
    interest: string,
    history: Option<string>,
    notes: Option<string>)

  /** `{ ...draft, id }`. */
  function WithId(d: LeadDraft, id: int): (l: Lead)
    ensures l.id == id && l.name == d.name && l.score == d.score && l.status == d.status
    ensures l.lastContact == d.lastContact
    ensures l.phone == d.phone && l.interest == d.interest && l.history == d.history && l.notes == d.notes
  {
    Lead(id, d.name, d.phone, d.score, d.status, d.lastContact, d.interest, d.history, d.notes)
  }

  datatype Sender = FromLead | FromYou

  datatype ChatMessage = ChatMessage(from: Sender, text: string, time: string, isAI: bool)

  /** The `SortOption` union of the lead list. */
  datatype SortOption = ScoreDesc | ScoreAsc | DateDesc | DateAsc | NameAsc | NameDesc {
    predicate IsDate() {
      this == DateDesc || this == DateAsc
    }
  }

  /** The `StatusFilter` union: `"all"` or one status. */
  datatype StatusFilter = All | Only(status: Status) {
    predicate Admits(s: Status) {
      All? || status == s
    }
  }

  /** What the AI service wrapper returns: the completion text, or "" and an
      error message. An empty `error` stands for an absent (falsy) one. */
  datatype AiResponse = AiResponse(content: string, error: string)

  /** `[...msgs].reverse().find(msg => msg.from === "lead")?.text`: the text of
      the most recent message from the lead, if there is one. */
  function LastLeadMessage(msgs: seq<ChatMessage>): Option<string>
  {
    if msgs == [] then None
    else if msgs[|msgs| - 1].from == FromLead then Some(msgs[|msgs| - 1].text)
    else LastLeadMessage(msgs[..|msgs| - 1])
  }

  /** There is an answer exactly when the lead has said something, and it is the
      text of a lead message with no lead message after it. */
  lemma {:induction false} LastLeadMessageSpec(msgs: seq<ChatMessage>)
    ensures var r := LastLeadMessage(msgs);
      && (r.Some? <==> exists i :: 0 <= i < |msgs| && msgs[i].from == FromLead)
      && (r.Some? ==> exists i :: 0 <= i < |msgs| && msgs[i].from == FromLead && msgs[i].text == r.value
                        && forall j :: i < j < |msgs| ==> msgs[j].from != FromLead)
  {
    if msgs != [] {
      var n := |msgs| - 1;
      var init := msgs[..n];
      if msgs[n].from != FromLead {
        LastLeadMessageSpec(init);
        var r := LastLeadMessage(init);
        assert forall i :: 0 <= i < |init| ==> init[i] == msgs[i];
        if r.Some? {
          var i :| 0 <= i < |init| && init[i].from == FromLead && init[i].text == r.value
                     && forall j :: i < j < |init| ==> init[j].from != FromLead;
          assert msgs[i].from == FromLead && msgs[i].text == r.value;
          assert forall j :: i < j < |msgs| ==> msgs[j].from != FromLead;
        }
      }
    }
  }

  /** A prospected business as the AI extraction returns it (`ProspectedLead`).
      An absent optional field stands for `null`. */
  datatype Candidate = Candidate(
    name: string,
    phone: Option<string>,
    address: Option<string>,
    website: Option<string>,
    businessType: string,
    score: int,
    notes: string)

  /** A toast shown to the user. */
  datatype Toast = Toast(title: string, description: string, destructive: bool)

  /** `new Date().toLocaleTimeString().slice(0, 5)`, given the formatted clock. */
  function TimeLabel(clock: string): (r: string)
    ensures |r| == if |clock| < 5 then |clock| else 5
    ensures clock[..|r|] == r
  {
    if |clock| < 5 then clock else clock[..5]
  }
}
