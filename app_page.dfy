/**
 * The older single-component sales agent page: its own lead list (ids are
 * positions, new leads go to the end), the add-lead form, the chat and the
 * suggestion button, and its colour rules. Its AI helper never fails: on any
 * error it answers with a fixed apology text, so every AI result here is a
 * plain string given as a parameter.
 */
module AppPage {
  import opened Wrappers
  import opened Text
  import opened Leads
  import opened LeadList
  import LeadCard

  /** `getScoreColor`: green from 80, yellow from 60, red below. */
  function ScoreColor(score: int): (c: string)
    ensures score >= 80 ==> c == "text-green-600 bg-green-100"
    ensures 60 <= score < 80 ==> c == "text-yellow-600 bg-yellow-100"
    ensures score < 60 ==> c == "text-red-600 bg-red-100"
  {
    if score >= 80 then "text-green-600 bg-green-100"
    else if score >= 60 then "text-yellow-600 bg-yellow-100"
    else "text-red-600 bg-red-100"
  }

  /** `getStatusColor`. */
  function StatusColor(s: Status): string {
    match s
    case Quente => "bg-red-500"
    case Morno => "bg-yellow-500"
    case Frio => "bg-blue-500"
  }

  /** This page's status colours tell statuses apart exactly as the lead card's dots do. */
  lemma StatusColorMatchesCardDot(a: Status, b: Status)
    ensures StatusColor(a) == StatusColor(b) <==> LeadCard.StatusDot(a) == LeadCard.StatusDot(b)
    ensures StatusColor(a) == StatusColor(b) <==> a == b
  {
  }

  /** This page's score colours use the lead card's cut-points: the colour picks
      the same bucket as the card's badge variant. */
  lemma ScoreColorMatchesCardVariant(score: int)
    ensures ScoreColor(score) == match LeadCard.ScoreVariantOf(score)
      case Success => "text-green-600 bg-green-100"
      case Warning => "text-yellow-600 bg-yellow-100"
      case HotVariant => "text-red-600 bg-red-100"
  {
  }

  /** The add-lead form. `score` is the range slider's value (0 to 100), which
      `parseInt` reads back unchanged; `status` is one of the select's options. */
  datatype NewLeadForm = NewLeadForm(name: string, phone: string, score: int, status: Status, interest: string, history: string)

  const EmptyForm := NewLeadForm("", "", 50, Frio, "", "")

  const AppInitialLeads: seq<Lead> := [
    Lead(1, "João Silva", "85 99999-1234", 85, Quente, Some("2 horas atrás"), "Produto Premium",
         Some("Perguntou sobre preços e formas de pagamento"), None),
    Lead(2, "Maria Santos", "85 98888-5678", 65, Morno, Some("1 dia atrás"), "Produto Básico",
         Some("Demonstrou interesse mas ainda tem dúvidas"), None),
    Lead(3, "Pedro Costa", "85 97777-9012", 95, Quente, Some("30 min atrás"), "Produto Premium + Serviços",
         Some("Muito interessado, pediu proposta"), None),
    Lead(4, "Ana Oliveira", "85 96666-3456", 45, Frio, Some("3 dias atrás"), "Produto Básico",
         Some("Viu informações mas não respondeu"), None)
  ]

  /** Every lead's id is its position plus one. */
  predicate IdsArePositions(leads: seq<Lead>) {
    forall i :: 0 <= i < |leads| ==> leads[i].id == i + 1
  }

  /** The lead record the form produces, with id `id`. */
  function LeadOf(form: NewLeadForm, id: int): (l: Lead)
    ensures l.id == id && l.name == form.name && l.phone == form.phone && l.interest == form.interest
    ensures l.score == form.score && l.status == form.status
    ensures l.lastContact == Some("Agora mesmo")
    ensures l.history == Some(if form.history == "" then "Lead recém adicionado" else form.history)
    ensures l.notes == None
  {
    Lead(id, form.name, form.phone, form.score, form.status, Some("Agora mesmo"), form.interest,
         Some(if form.history == "" then "Lead recém adicionado" else form.history), None)
  }

  /** The two messages a freshly selected lead's transcript starts with. */
  function AppSeedTranscript(lead: Lead): (t: seq<ChatMessage>)
    ensures |t| == 2 && t[0].from == FromLead && t[1].from == FromYou
  {
    [ ChatMessage(FromLead, "Olá, tenho interesse no " + lead.interest, "10:30", false),
      ChatMessage(FromYou, "Ótimo! Vou te passar mais informações...", "10:32", false) ]
  }

  const MissingFields := "Preencha pelo menos nome, telefone e interesse!"
  const LeadAdded := "✅ Lead adicionado com sucesso!"

  class SalesAgent {
    var leads: seq<Lead>
    var selectedLead: Option<Lead>
    var aiSuggestion: string
    var chatMessages: seq<ChatMessage>
    var newMessage: string
    var isAiThinking: bool
    var autoResponseEnabled: bool
    var showAddLeadForm: bool
    var newLead: NewLeadForm

    predicate Valid()
      reads this
    {
      IdsArePositions(leads)
    }

    constructor()
      ensures Valid()
      ensures leads == AppInitialLeads && selectedLead == None && aiSuggestion == ""
      ensures chatMessages == [] && newMessage == "" && !isAiThinking && autoResponseEnabled
      ensures !showAddLeadForm && newLead == EmptyForm
    {
      leads := AppInitialLeads;
      selectedLead := None;
      aiSuggestion := "";
      chatMessages := [];
      newMessage := "";
      isAiThinking := false;
      autoResponseEnabled := true;
      showAddLeadForm := false;
      newLead := EmptyForm;
    }

    /** The stats cards for the stored leads. */
    function CurrentStats(): (st: Stats)
      reads this
      ensures st.totalLeads == |leads|
      ensures st.hotLeads == |Filter(leads, Only(Quente))|
      ensures st.avgScore.None? <==> leads == []
    {
      StatsOf(leads)
    }

    /** The auto-response switch. */
    method ToggleAutoResponse()
      modifies this
      ensures autoResponseEnabled == !old(autoResponseEnabled)
      ensures leads == old(leads) && selectedLead == old(selectedLead) && chatMessages == old(chatMessages)
      ensures newMessage == old(newMessage) && isAiThinking == old(isAiThinking)
      ensures aiSuggestion == old(aiSuggestion) && newLead == old(newLead) && showAddLeadForm == old(showAddLeadForm)
    {
      autoResponseEnabled := !autoResponseEnabled;
    }

    /** Typing in the chat input. */
    method TypeMessage(text: string)
      modifies this
      ensures newMessage == text
      ensures leads == old(leads) && selectedLead == old(selectedLead) && chatMessages == old(chatMessages)
      ensures isAiThinking == old(isAiThinking) && autoResponseEnabled == old(autoResponseEnabled)
      ensures aiSuggestion == old(aiSuggestion) && newLead == old(newLead) && showAddLeadForm == old(showAddLeadForm)
    {
      newMessage := text;
    }

    /** Editing the add-lead form. */
    method EditForm(form: NewLeadForm)
      modifies this
      ensures newLead == form
      ensures leads == old(leads) && selectedLead == old(selectedLead) && chatMessages == old(chatMessages)
      ensures newMessage == old(newMessage) && isAiThinking == old(isAiThinking)
      ensures autoResponseEnabled == old(autoResponseEnabled) && aiSuggestion == old(aiSuggestion)
      ensures showAddLeadForm == old(showAddLeadForm)
    {
      newLead := form;
    }

    /** `handleAddLead`: with an empty name, phone or interest nothing changes and
        the page alerts; otherwise the lead is appended with id `|leads| + 1`, the
        form is reset and closed. Whitespace-only fields are not empty here. */
    method AddLead() returns (alert: string)
      requires Valid()
      modifies this
      ensures Valid()
      ensures old(newLead.name == "" || newLead.phone == "" || newLead.interest == "") ==>
                alert == MissingFields && leads == old(leads) && newLead == old(newLead)
                && showAddLeadForm == old(showAddLeadForm)
      ensures old(newLead.name != "" && newLead.phone != "" && newLead.interest != "") ==>
                && alert == LeadAdded
                && leads == old(leads) + [LeadOf(old(newLead), |old(leads)| + 1)]
                && newLead == EmptyForm && !showAddLeadForm
      ensures selectedLead == old(selectedLead) && chatMessages == old(chatMessages)
      ensures newMessage == old(newMessage) && isAiThinking == old(isAiThinking)
      ensures autoResponseEnabled == old(autoResponseEnabled) && aiSuggestion == old(aiSuggestion)
    {
      if newLead.name == "" || newLead.phone == "" || newLead.interest == "" {
        return MissingFields;
      }
      leads := leads + [LeadOf(newLead, |leads| + 1)];
      newLead := EmptyForm;
      showAddLeadForm := false;
      alert := LeadAdded;
    }

    /** `handleLeadSelect` once the analysis text has come back. */
    method SelectLead(lead: Lead, analysis: string)
      modifies this
      ensures selectedLead == Some(lead)
      ensures chatMessages == AppSeedTranscript(lead)
      ensures aiSuggestion == analysis && !isAiThinking
      ensures leads == old(leads) && newMessage == old(newMessage)
      ensures autoResponseEnabled == old(autoResponseEnabled)
      ensures newLead == old(newLead) && showAddLeadForm == old(showAddLeadForm)
    {
      selectedLead := Some(lead);
      isAiThinking := true;
      chatMessages := AppSeedTranscript(lead);
      aiSuggestion := analysis;
      isAiThinking := false;
    }

    /** `sendMessage`, including the delayed auto-response once it has run. An
        input that is empty after trimming changes nothing. Otherwise the untrimmed
        text is appended as "you" and the input cleared; with auto-response on and
        a lead selected, the same text is what the lead replies to, and the reply
        follows as one AI message from the lead. */
    method SendMessage(clock: string, reply: string, replyClock: string) returns (asked: Option<string>)
      modifies this
      ensures Trim(old(newMessage)) == "" ==>
                asked == None && chatMessages == old(chatMessages) && newMessage == old(newMessage)
                && isAiThinking == old(isAiThinking)
      ensures Trim(old(newMessage)) != "" ==>
                var sent := ChatMessage(FromYou, old(newMessage), TimeLabel(clock), false);
                && newMessage == ""
                && (autoResponseEnabled && selectedLead.Some? ==>
                      && asked == Some(old(newMessage))
                      && chatMessages == old(chatMessages) + [sent, ChatMessage(FromLead, reply, TimeLabel(replyClock), true)]
                      && !isAiThinking)
                && (!(autoResponseEnabled && selectedLead.Some?) ==>
                      asked == None && chatMessages == old(chatMessages) + [sent] && isAiThinking == old(isAiThinking))
      ensures leads == old(leads) && selectedLead == old(selectedLead) && aiSuggestion == old(aiSuggestion)
      ensures autoResponseEnabled == old(autoResponseEnabled)
      ensures newLead == old(newLead) && showAddLeadForm == old(showAddLeadForm)
    {
      if Trim(newMessage) == "" {
        return None;
      }
      var text := newMessage;
      chatMessages := chatMessages + [ChatMessage(FromYou, text, TimeLabel(clock), false)];
      newMessage := "";
      asked := None;
      if autoResponseEnabled && selectedLead.Some? {
        isAiThinking := true;
        asked := Some(text);
        chatMessages := chatMessages + [ChatMessage(FromLead, reply, TimeLabel(replyClock), true)];
        isAiThinking := false;
      }
    }

    /** `getSuggestedResponse`: without a selected lead or with an empty transcript
        nothing happens. Otherwise the most recent lead message, when there is a
        non-empty one, is answered and the answer replaces the chat input; thinking
        is over either way. */
    method GetSuggestedResponse(suggestion: string) returns (asked: Option<string>)
      modifies this
      ensures selectedLead.None? || chatMessages == [] ==>
                asked == None && newMessage == old(newMessage) && isAiThinking == old(isAiThinking)
      ensures selectedLead.Some? && chatMessages != [] ==>
                var last := LastLeadMessage(chatMessages);
                && !isAiThinking
                && (last.Some? && last.value != "" ==> asked == last && newMessage == suggestion)
                && (last.None? || last.value == "" ==> asked == None && newMessage == old(newMessage))
      ensures leads == old(leads) && selectedLead == old(selectedLead) && chatMessages == old(chatMessages)
      ensures aiSuggestion == old(aiSuggestion) && autoResponseEnabled == old(autoResponseEnabled)
      ensures newLead == old(newLead) && showAddLeadForm == old(showAddLeadForm)
    {
      if selectedLead.None? || |chatMessages| == 0 {
        return None;
      }
      isAiThinking := true;
      var last := LastLeadMessage(chatMessages);
      asked := None;
      if last.Some? && last.value != "" {
        asked := last;
        newMessage := suggestion;
      }
      isAiThinking := false;
    }
  }

  /** The seeded leads' ids are their positions. */
  lemma AppInitialIds()
    ensures IdsArePositions(AppInitialLeads)
  {
  }

  /** After the seed leads and any adds, ids are exactly 1..n: they are distinct,
      and the next id is one more than the largest. */
  lemma PositionIdsDistinct(leads: seq<Lead>)
    requires IdsArePositions(leads)
    ensures forall i, j :: 0 <= i < j < |leads| ==> leads[i].id != leads[j].id
    ensures MaxId(leads) == |leads|
  {
    PositionMaxId(leads);
  }

  /** The largest of ids 1..n is n. */
  lemma {:induction false} PositionMaxId(leads: seq<Lead>)
    requires IdsArePositions(leads)
    ensures MaxId(leads) == |leads|
  {
    if leads != [] {
      var init, last := leads[..|leads| - 1], leads[|leads| - 1];
      assert leads == init + [last];
      assert last.id == |leads|;
      assert IdsArePositions(init);
      PositionMaxId(init);
      MaxIdAppend(init, last);
    }
  }

  /** Appending a lead raises the largest id to the lead's id when it is larger. */
  lemma MaxIdAppend(leads: seq<Lead>, l: Lead)
    requires l.id >= MaxId(leads)
    ensures MaxId(leads + [l]) == l.id
  {
    var m := MaxId(leads + [l]);
    assert l in leads + [l];
    assert forall x :: x in leads + [l] ==> x in leads || x == l;
  }
}
