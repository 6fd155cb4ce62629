/**
 * The dashboard page's state: the lead list, the selected lead with its AI
 * analysis, the chat transcript and the "AI is thinking" flag. Each handler
 * that awaits an AI call is one method here, given what the call returned.
 */
module IndexPage {
  import opened Wrappers
  import opened Leads
  import opened LeadList

  /** The four leads the page starts with. */
  const InitialLeads: seq<Lead> := [
    Lead(1, "João Silva", "85 99999-1234", 85, Quente, Some("2 horas atrás"), "Kit Limpeza Profissional",
         Some("Perguntou sobre produtos para limpeza pesada e desengordurantes"), None),
    Lead(2, "Maria Santos", "85 98888-5678", 65, Morno, Some("1 dia atrás"), "Produtos Eco-Friendly",
         Some("Busca produtos sustentáveis para sua empresa de limpeza"), None),
    Lead(3, "Pedro Costa", "85 97777-9012", 95, Quente, Some("30 min atrás"), "Equipamentos de Higienização",
         Some("Muito interessado em lavadoras e aspiradores industriais"), None),
    Lead(4, "Ana Oliveira", "85 96666-3456", 45, Frio, Some("3 dias atrás"), "Desinfetantes Hospitalar",
         Some("Viu catálogo mas não respondeu sobre quantidades"), None)
  ]

  /** Ids are positive and no two leads share one. */
  predicate DistinctIds(leads: seq<Lead>) {
    && (forall i :: 0 <= i < |leads| ==> leads[i].id >= 1)
    && (forall i, j :: 0 <= i < j < |leads| ==> leads[i].id != leads[j].id)
  }

  /** A lead whose id exceeds every id in the list keeps the ids distinct when it
      is put in front. */
  lemma PrependAboveMax(leads: seq<Lead>, l: Lead)
    requires DistinctIds(leads) && l.id > MaxId(leads)
    ensures DistinctIds([l] + leads)
    ensures forall k :: k in leads ==> k.id < l.id
  {
    BelowMax(leads, l);
    var s := [l] + leads;
    assert s[1..] == leads;
    DistinctCons(s);
  }

  /** A list keeps its ids distinct when its head's id is positive and differs
      from every id of a tail whose ids are distinct. */
  lemma DistinctCons(s: seq<Lead>)
    requires s != [] && s[0].id >= 1 && DistinctIds(s[1..])
    requires forall k :: k in s[1..] ==> k.id < s[0].id
    ensures DistinctIds(s)
  {
    var t := s[1..];
    forall i, j | 0 <= i < j < |s| ensures s[i].id != s[j].id {
      assert s[j] == t[j - 1];
      if i == 0 {
        assert t[j - 1] in t;
      } else {
        assert s[i] == t[i - 1];
      }
    }
    forall i | 0 <= i < |s| ensures s[i].id >= 1 {
      if i > 0 {
        assert s[i] == t[i - 1];
      }
    }
  }

  /** Every lead of the list sits below an id larger than the list's largest. */
  lemma BelowMax(leads: seq<Lead>, l: Lead)
    requires l.id > MaxId(leads)
    ensures forall k :: k in leads ==> k.id < l.id
    ensures forall j :: 0 <= j < |leads| ==> leads[j].id < l.id
  {
    forall j | 0 <= j < |leads| ensures leads[j].id < l.id {
      assert leads[j] in leads;
    }
  }

  /** The two messages a freshly selected lead's transcript starts with. */
  function SeedTranscript(lead: Lead): (t: seq<ChatMessage>)
    ensures |t| == 2 && t[0].from == FromLead && t[1].from == FromYou
    ensures !t[0].isAI && !t[1].isAI
  {
    [ ChatMessage(FromLead, "Olá, tenho interesse em " + lead.interest + AskForHelp, "10:30", false),
      ChatMessage(FromYou, SellerOpening, "10:32", false) ]
  }

  const AskForHelp := ". Podem me ajudar?"
  const SellerOpening := "Olá! Claro, temos ótimas opções para você. Qual é a sua necessidade principal?"

  const AnalysisFailed := "Não foi possível gerar a análise. Tente novamente."

  class LeadStore {
    var leads: seq<Lead>
    var selectedLead: Option<Lead>
    var aiSuggestion: string
    var chatMessages: seq<ChatMessage>
    var isAiThinking: bool
    var autoResponseEnabled: bool
    var sortBy: SortOption
    var statusFilter: StatusFilter

    predicate Valid()
      reads this
    {
      DistinctIds(leads)
    }

    constructor()
      ensures Valid()
      ensures leads == InitialLeads && selectedLead == None && aiSuggestion == ""
      ensures chatMessages == [] && !isAiThinking && autoResponseEnabled
      ensures sortBy == ScoreDesc && statusFilter == All
    {
      leads := InitialLeads;
      selectedLead := None;
      aiSuggestion := "";
      chatMessages := [];
      isAiThinking := false;
      autoResponseEnabled := true;
      sortBy := ScoreDesc;
      statusFilter := All;
    }

    /** The list the page shows; the stored `leads` are left as they are. */
    function Visible(nameLe: (string, string) -> bool): (r: seq<Lead>)
      reads this
      requires !DateSortThrows(leads, statusFilter, sortBy)
      ensures multiset(r) == multiset(Filter(leads, statusFilter))
      ensures forall l :: l in r <==> l in leads && statusFilter.Admits(l.status)
      ensures TotalPreorder(nameLe) ==> SortedBy(r, Before(sortBy, nameLe))
    {
      View(leads, statusFilter, sortBy, nameLe)
    }

    /** The stats cards for the stored leads. */
    function CurrentStats(): (st: Stats)
      reads this
      ensures st.totalLeads == |leads|
      ensures st.hotLeads == |Filter(leads, Only(Quente))|
      ensures st.avgScore.None? <==> leads == []
    {
      StatsOf(leads)
    }

    /** The sort select. */
    method ChooseSort(s: SortOption)
      modifies this
      ensures sortBy == s
      ensures leads == old(leads) && statusFilter == old(statusFilter)
      ensures selectedLead == old(selectedLead) && chatMessages == old(chatMessages)
      ensures isAiThinking == old(isAiThinking) && aiSuggestion == old(aiSuggestion)
      ensures autoResponseEnabled == old(autoResponseEnabled)
    {
      sortBy := s;
    }

    /** The status filter select. */
    method ChooseFilter(f: StatusFilter)
      modifies this
      ensures statusFilter == f
      ensures leads == old(leads) && sortBy == old(sortBy)
      ensures selectedLead == old(selectedLead) && chatMessages == old(chatMessages)
      ensures isAiThinking == old(isAiThinking) && aiSuggestion == old(aiSuggestion)
      ensures autoResponseEnabled == old(autoResponseEnabled)
    {
      statusFilter := f;
    }

    /** `handleAddLead`: the new lead gets the next id after the largest one (or 1)
        and goes to the front of the list. */
    method AddLead(draft: LeadDraft)
      requires Valid()
      modifies this
      ensures Valid()
      ensures leads == [WithId(draft, MaxId(old(leads)) + 1)] + old(leads)
      ensures forall l :: l in old(leads) ==> l.id < leads[0].id
      ensures selectedLead == old(selectedLead) && chatMessages == old(chatMessages)
      ensures isAiThinking == old(isAiThinking) && aiSuggestion == old(aiSuggestion)
      ensures autoResponseEnabled == old(autoResponseEnabled)
      ensures sortBy == old(sortBy) && statusFilter == old(statusFilter)
    {
      var added := WithId(draft, MaxId(leads) + 1);
      PrependAboveMax(leads, added);
      leads := [added] + leads;
    }

    /** `handleLeadSelect` once the analysis has come back: the transcript is reset
        to the two seed messages, the suggestion panel shows the analysis or the
        failure text, and thinking is over. A failed analysis raises a toast. */
    method SelectLead(lead: Lead, analysis: AiResponse) returns (toast: Option<Toast>)
      modifies this
      ensures selectedLead == Some(lead)
      ensures chatMessages == SeedTranscript(lead)
      ensures analysis.error == "" ==> aiSuggestion == analysis.content && toast == None
      ensures analysis.error != "" ==>
                aiSuggestion == AnalysisFailed && toast == Some(Toast("Erro na análise", analysis.error, true))
      ensures !isAiThinking
      ensures leads == old(leads) && autoResponseEnabled == old(autoResponseEnabled)
      ensures sortBy == old(sortBy) && statusFilter == old(statusFilter)
    {
      selectedLead := Some(lead);
      isAiThinking := true;
      aiSuggestion := "";
      chatMessages := SeedTranscript(lead);
      if analysis.error != "" {
        toast := Some(Toast("Erro na análise", analysis.error, true));
        aiSuggestion := AnalysisFailed;
      } else {
        toast := None;
        aiSuggestion := analysis.content;
      }
      isAiThinking := false;
    }

    /** `handleSendMessage`: the message goes to the end of the transcript. With
        auto-response on and a lead selected, a successful reply follows it as one
        AI message from the lead; a failed one adds nothing and raises a toast. */
    method SendMessage(message: string, clock: string, reply: AiResponse, replyClock: string)
      returns (toast: Option<Toast>)
      modifies this
      ensures var sent := ChatMessage(FromYou, message, TimeLabel(clock), false);
        if autoResponseEnabled && selectedLead.Some? && reply.error == "" then
          chatMessages == old(chatMessages) + [sent, ChatMessage(FromLead, reply.content, TimeLabel(replyClock), true)]
        else
          chatMessages == old(chatMessages) + [sent]
      ensures autoResponseEnabled && selectedLead.Some? ==> !isAiThinking
      ensures !(autoResponseEnabled && selectedLead.Some?) ==> isAiThinking == old(isAiThinking)
      ensures toast.Some? <==> autoResponseEnabled && selectedLead.Some? && reply.error != ""
      ensures toast.Some? ==> toast.value == Toast("Erro", reply.error, true)
      ensures leads == old(leads) && selectedLead == old(selectedLead) && aiSuggestion == old(aiSuggestion)
      ensures autoResponseEnabled == old(autoResponseEnabled)
      ensures sortBy == old(sortBy) && statusFilter == old(statusFilter)
    {
      toast := None;
      chatMessages := chatMessages + [ChatMessage(FromYou, message, TimeLabel(clock), false)];
      if autoResponseEnabled && selectedLead.Some? {
        isAiThinking := true;
        if reply.error != "" {
          toast := Some(Toast("Erro", reply.error, true));
          isAiThinking := false;
          return;
        }
        chatMessages := chatMessages + [ChatMessage(FromLead, reply.content, TimeLabel(replyClock), true)];
        isAiThinking := false;
      }
    }

    /** `handleSuggestResponse` as written. Without a selected lead or with an
        empty transcript it does nothing and returns nothing. Otherwise it asks
        for a reply to the most recent lead message (or ""), and returns the
        suggestion when there is one, without clearing the thinking flag, or ""
        after clearing it. */
    method SuggestResponse(reply: AiResponse) returns (asked: Option<string>, suggestion: Option<string>)
      modifies this
      ensures selectedLead.None? || chatMessages == [] ==>
                asked == None && suggestion == None && isAiThinking == old(isAiThinking)
      ensures selectedLead.Some? && chatMessages != [] ==>
                && asked == Some(LastLeadMessage(chatMessages).GetOr(""))
                && (reply.content != "" ==> suggestion == Some(reply.content) && isAiThinking)
                && (reply.content == "" ==> suggestion == Some("") && !isAiThinking)
      ensures leads == old(leads) && selectedLead == old(selectedLead) && chatMessages == old(chatMessages)
      ensures aiSuggestion == old(aiSuggestion) && autoResponseEnabled == old(autoResponseEnabled)
      ensures sortBy == old(sortBy) && statusFilter == old(statusFilter)
    {
      if selectedLead.None? || |chatMessages| == 0 {
        return None, None;
      }
      isAiThinking := true;
      asked := Some(LastLeadMessage(chatMessages).GetOr(""));
      if reply.content != "" {
        return asked, Some(reply.content);
      }
      isAiThinking := false;
      suggestion := Some("");
    }

    /** `handleSuggestResponse` with the thinking flag cleared on both outcomes. */
    method SuggestResponseFixed(reply: AiResponse) returns (asked: Option<string>, suggestion: Option<string>)
      modifies this
      ensures selectedLead.None? || chatMessages == [] ==>
                asked == None && suggestion == None && isAiThinking == old(isAiThinking)
      ensures selectedLead.Some? && chatMessages != [] ==>
                && asked == Some(LastLeadMessage(chatMessages).GetOr(""))
                && suggestion == Some(reply.content)
                && !isAiThinking
      ensures leads == old(leads) && selectedLead == old(selectedLead) && chatMessages == old(chatMessages)
      ensures aiSuggestion == old(aiSuggestion) && autoResponseEnabled == old(autoResponseEnabled)
      ensures sortBy == old(sortBy) && statusFilter == old(statusFilter)
    {
      if selectedLead.None? || |chatMessages| == 0 {
        return None, None;
      }
      isAiThinking := true;
      asked := Some(LastLeadMessage(chatMessages).GetOr(""));
      suggestion := Some(reply.content);
      isAiThinking := false;
    }
  }

  /** The seeded leads have ids 1 to 4. */
  lemma InitialIds()
    ensures DistinctIds(InitialLeads)
    ensures forall i :: 0 <= i < |InitialLeads| ==> InitialLeads[i].id == i + 1
  {
  }

  /** The seeded leads' stats cards read 4 leads, 2 hot, and an average score of
      73 (290 / 4 = 72.5, rounded up). */
  lemma InitialStats()
    ensures StatsOf(InitialLeads) == Stats(4, 2, "32%", Some(73))
  {
    InitialScoreSum();
    InitialHotCount();
    CountIsFilterLength(InitialLeads, Quente);
    assert RoundedMean(290, 4) == 73;
  }

  lemma InitialScoreSum()
    ensures ScoreSum(InitialLeads) == 290
  {
    var l := InitialLeads;
    assert l[1..][1..][1..][1..] == [];
  }

  lemma InitialHotCount()
    ensures CountStatus(InitialLeads, Quente) == 2
  {
    var l := InitialLeads;
    assert l[1..][1..][1..][1..] == [];
  }

  /** With ids 1, 3 and 4 the next lead gets id 5. */
  lemma NextIdExample(a: Lead, b: Lead, c: Lead)
    requires a.id == 1 && b.id == 3 && c.id == 4
    ensures MaxId([a, b, c]) + 1 == 5
  {
    assert [a, b, c][1..] == [b, c] && [b, c][1..] == [c];
  }

  /** A successful suggestion leaves the page thinking: after selecting a lead
      and asking for a suggestion that the service answers, `isAiThinking` is
      still true, so the chat's send and suggest buttons stay disabled. */
  method SuggestLeavesThinking() returns (stuck: bool)
    ensures stuck
  {
    var store := new LeadStore();
    var _ := store.SelectLead(InitialLeads[0], AiResponse("análise", ""));
    var asked, suggestion := store.SuggestResponse(AiResponse("Posso enviar o catálogo?", ""));
    stuck := store.isAiThinking;
  }

  /** The corrected handler leaves the page idle after the same steps. */
  method SuggestFixedEndsIdle() returns (idle: bool)
    ensures idle
  {
    var store := new LeadStore();
    var _ := store.SelectLead(InitialLeads[0], AiResponse("análise", ""));
    var asked, suggestion := store.SuggestResponseFixed(AiResponse("Posso enviar o catálogo?", ""));
    idle := !store.isAiThinking;
  }
}
