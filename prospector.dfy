/**
 * The prospecting panel: it validates the city and business type, builds the
 * search query, runs the search and the AI extraction, lists the candidates,
 * and promotes a candidate to a lead at most once per name. Its score
 * cut-points are 70 and 40.
 */
module Prospector {
  import opened Wrappers
  import opened Text
  import opened Schema
  import opened Leads
  import LeadList
  import LeadCard

  /** The city pattern's class `[a-zA-ZÀ-ÿ\s,'-]`. */
  predicate IsCityChar(c: char) {
    || ('a' <= c <= 'z') || ('A' <= c <= 'Z') || ('À' <= c <= 'ÿ')
    || IsSpace(c) || c == ',' || c == '\'' || c == '-'
  }

  const CityChecks := [
    MinLength(2, "Cidade deve ter no mínimo 2 caracteres"),
    MaxLength(100, "Cidade deve ter no máximo 100 caracteres"),
    Chars(IsCityChar, false, "Cidade deve conter apenas letras e vírgulas")]

  const BusinessTypeChecks := [
    MinLength(3, "Tipo de negócio deve ter no mínimo 3 caracteres"),
    MaxLength(100, "Tipo de negócio deve ter no máximo 100 caracteres")]

  /** The schema accepts the input when, after trimming, the city has 2..100
      characters, all in the city class, and the business type 3..100. */
  predicate SearchAccepted(city: string, businessType: string) {
    && 2 <= Utf16Length(Trim(city)) <= 100 && AllIn(Trim(city), IsCityChar)
    && 3 <= Utf16Length(Trim(businessType)) <= 100
  }

  lemma CityIssuesIff(v: string)
    ensures FieldIssues("city", v, CityChecks, NoEmailCheck) == [] <==>
              2 <= Utf16Length(v) <= 100 && AllIn(v, IsCityChar)
  {
    assert Passes(CityChecks[0], v, NoEmailCheck) <==> Utf16Length(v) >= 2;
    assert Passes(CityChecks[1], v, NoEmailCheck) <==> Utf16Length(v) <= 100;
    assert Passes(CityChecks[2], v, NoEmailCheck) <==> |v| > 0 && AllIn(v, IsCityChar);
  }

  lemma BusinessTypeIssuesIff(v: string)
    ensures FieldIssues("businessType", v, BusinessTypeChecks, NoEmailCheck) == [] <==> 3 <= Utf16Length(v) <= 100
  {
    assert Passes(BusinessTypeChecks[0], v, NoEmailCheck) <==> Utf16Length(v) >= 3;
    assert Passes(BusinessTypeChecks[1], v, NoEmailCheck) <==> Utf16Length(v) <= 100;
  }

  /** `prospectorSchema.safeParse`: the city's issues, then the business type's. */
  function SearchIssues(city: string, businessType: string): (r: seq<Issue>)
    ensures r == [] <==> SearchAccepted(city, businessType)
  {
    var c, b := Trim(city), Trim(businessType);
    CityIssuesIff(c);
    BusinessTypeIssuesIff(b);
    var ci := FieldIssues("city", c, CityChecks, NoEmailCheck);
    var bi := FieldIssues("businessType", b, BusinessTypeChecks, NoEmailCheck);
    assert |ci + bi| == |ci| + |bi|;
    ci + bi
  }

  /** The search query for the validated values. */
  function BuildQuery(businessType: string, city: string): (q: string)
    ensures |q| == |businessType| + |city| + 21
    ensures q[..|businessType|] == businessType
    ensures q[|businessType|..|businessType| + 4] == " em "
    ensures q[|businessType| + 4..|businessType| + 4 + |city|] == city
    ensures q[|q| - 17..] == " telefone contato"
  {
    businessType + " em " + city + " telefone contato"
  }

  /** The number of results the search asks for. */
  const SearchLimit := 15

  /** The call made to the search service: the query and the result limit. */
  datatype SearchRequest = SearchRequest(query: string, limit: int)

  /** The status a promoted candidate gets from its score. */
  function PromotionStatus(score: int): (s: Status)
    ensures s == Quente <==> score >= 70
    ensures s == Morno <==> 40 <= score < 70
    ensures s == Frio <==> score < 40
  {
    if score >= 70 then Quente else if score >= 40 then Morno else Frio
  }

  /** `getScoreColor` of the candidate list. */
  function ScoreColor(score: int): (c: string)
    ensures score >= 70 ==> c == "bg-emerald-500/20 text-emerald-400 border-emerald-500/30"
    ensures 40 <= score < 70 ==> c == "bg-amber-500/20 text-amber-400 border-amber-500/30"
    ensures score < 40 ==> c == "bg-red-500/20 text-red-400 border-red-500/30"
  {
    if score >= 70 then "bg-emerald-500/20 text-emerald-400 border-emerald-500/30"
    else if score >= 40 then "bg-amber-500/20 text-amber-400 border-amber-500/30"
    else "bg-red-500/20 text-red-400 border-red-500/30"
  }

  /** The candidate colour and the promotion status share their cut-points. */
  lemma ScoreColorMatchesStatus(score: int)
    ensures ScoreColor(score) == match PromotionStatus(score)
      case Quente => "bg-emerald-500/20 text-emerald-400 border-emerald-500/30"
      case Morno => "bg-amber-500/20 text-amber-400 border-amber-500/30"
      case Frio => "bg-red-500/20 text-red-400 border-red-500/30"
  {
  }

  /** The prospector's 70/40 cut-points differ from the lead card's 80/60: a
      candidate scored 75 is promoted as quente but its card shows the warning
      badge, and one scored 50 is morno with the card's low-score badge. */
  lemma PromotionDisagreesWithCard()
    ensures PromotionStatus(75) == Quente && LeadCard.ScoreVariantOf(75) == LeadCard.Warning
    ensures PromotionStatus(50) == Morno && LeadCard.ScoreVariantOf(50) == LeadCard.HotVariant
  {
  }

  /** The promoted lead's notes: the candidate's notes, then the address and the
      site when they are non-empty. */
  function NotesOf(c: Candidate): (r: string)
    ensures |r| >= |c.notes| && r[..|c.notes|] == c.notes
    ensures !Truthy(c.address) && !Truthy(c.website) ==> r == c.notes
    ensures Truthy(c.address) ==>
              var a := " | Endereço: " + c.address.value;
              |r| >= |c.notes| + |a| && r[|c.notes|..|c.notes| + |a|] == a
    ensures Truthy(c.website) ==>
              var w := " | Site: " + c.website.value;
              |r| >= |c.notes| + |w| && r[|r| - |w|..] == w
    ensures |r| == |c.notes|
                   + (if Truthy(c.address) then |" | Endereço: " + c.address.value| else 0)
                   + (if Truthy(c.website) then |" | Site: " + c.website.value| else 0)
  {
    c.notes
    + (if Truthy(c.address) then " | Endereço: " + c.address.value else "")
    + (if Truthy(c.website) then " | Site: " + c.website.value else "")
  }

  /** The phone a promoted lead gets. */
  function PhoneOf(c: Candidate): (p: string)
    ensures Truthy(c.phone) ==> p == c.phone.value
    ensures !Truthy(c.phone) ==> p == "Não informado"
    ensures p != ""
  {
    if Truthy(c.phone) then c.phone.value else "Não informado"
  }

  /** `handleAddLead`: the lead handed to the page, as written. It carries no
      `lastContact` and no `history`. */
  function Promote(c: Candidate): (d: LeadDraft)
    ensures d.name == c.name && d.phone == PhoneOf(c) && d.score == c.score
    ensures d.status == PromotionStatus(c.score) && d.interest == c.businessType
    ensures d.notes == Some(NotesOf(c))
    ensures d.lastContact == None && d.history == None
  {
    LeadDraft(c.name, PhoneOf(c), c.score, PromotionStatus(c.score), None, c.businessType, None, Some(NotesOf(c)))
  }

  /** A promoted lead next to any other lead makes the date sort throw, since
      the page reads `lastContact` of every compared lead. */
  lemma PromotedLeadBreaksDateSort(c: Candidate, id: int, other: Lead)
    ensures LeadList.DateSortThrows([WithId(Promote(c), id), other], All, DateDesc)
    ensures LeadList.DateSortThrows([WithId(Promote(c), id), other], All, DateAsc)
  {
    var l := WithId(Promote(c), id);
    assert l in LeadList.Filter([l, other], All);
  }

  /** The promotion with the fields every other lead has: contacted "Agora",
      with the composed notes as its history. */
  function PromoteFixed(c: Candidate): (d: LeadDraft)
    ensures d.name == c.name && d.phone == PhoneOf(c) && d.score == c.score
    ensures d.status == PromotionStatus(c.score) && d.interest == c.businessType
    ensures d.notes == Some(NotesOf(c))
    ensures d.lastContact == Some("Agora") && d.history == Some(NotesOf(c))
  {
    LeadDraft(c.name, PhoneOf(c), c.score, PromotionStatus(c.score), Some("Agora"), c.businessType,
              Some(NotesOf(c)), Some(NotesOf(c)))
  }

  /** With the corrected promotion, a list in which every lead has a last contact
      keeps that property, so no sort of it throws. */
  lemma FixedPromotionKeepsDateSort(c: Candidate, id: int, leads: seq<Lead>, f: StatusFilter, sortBy: SortOption)
    requires forall l :: l in leads ==> l.lastContact.Some?
    ensures !LeadList.DateSortThrows([WithId(PromoteFixed(c), id)] + leads, f, sortBy)
  {
    var all := [WithId(PromoteFixed(c), id)] + leads;
    assert forall l :: l in LeadList.Filter(all, f) ==> l in all;
  }

  /** What the search service answered. `data` is `[]` when it is absent. */
  datatype SearchReply = SearchReply(success: bool, error: string, data: seq<string>)

  /** What the prospecting service answered. */
  datatype ProspectReply = ProspectReply(success: bool, error: string, leads: Option<seq<Candidate>>)

  /** `message || fallback`. */
  function OrDefault(message: string, fallback: string): string {
    if message != "" then message else fallback
  }

  /** The candidate list after a search on valid input: the extracted leads when
      the search found results and the extraction succeeded, otherwise empty. */
  function Found(search: SearchReply, prospect: ProspectReply): (r: seq<Candidate>)
    ensures r != [] ==> search.success && search.data != [] && prospect.success && prospect.leads == Some(r)
    ensures search.success && search.data != [] && prospect.success ==> r == prospect.leads.GetOr([])
    ensures !search.success || search.data == [] || !prospect.success ==> r == []
  {
    if search.success && search.data != [] && prospect.success then prospect.leads.GetOr([]) else []
  }

  /** The toasts a search on valid input shows: "Buscando...", then either an
      error, "Nenhum resultado", or "Processando com IA" followed by an error or
      "Busca concluída!". */
  const NoResults := "Não foram encontrados resultados para essa busca."

  function SearchToasts(validType: string, validCity: string, search: SearchReply, prospect: ProspectReply): (r: seq<Toast>)
    ensures 2 <= |r| <= 3
    ensures r[0] == Toast("Buscando...", "Procurando " + validType + " em " + validCity, false)
    ensures !search.success ==> r[|r| - 1] == Toast("Erro na busca", OrDefault(search.error, "Erro na busca"), true)
    ensures search.success && search.data == [] ==>
              r[|r| - 1] == Toast("Nenhum resultado", NoResults, false)
    ensures search.success && search.data != [] && !prospect.success ==>
              r[|r| - 1] == Toast("Erro na busca", OrDefault(prospect.error, "Erro ao processar leads"), true)
    ensures search.success && search.data != [] && prospect.success ==>
              r[|r| - 1] == Toast("Busca concluída!", "Encontrados " + Decimal(|Found(search, prospect)|) + " potenciais leads.", false)
    ensures r[|r| - 1].destructive <==> !search.success || (search.data != [] && !prospect.success)
    ensures |r| == 3 <==> search.success && search.data != []
    ensures |r| == 3 ==> r[1] == Toast("Processando com IA", "Analisando " + Decimal(|search.data|) + " resultados...", false)
    ensures forall k :: 0 <= k < |r| - 1 ==> !r[k].destructive
  {
    var start := [Toast("Buscando...", "Procurando " + validType + " em " + validCity, false)];
    if !search.success then
      start + [Toast("Erro na busca", OrDefault(search.error, "Erro na busca"), true)]
    else if search.data == [] then
      start + [Toast("Nenhum resultado", NoResults, false)]
    else
      var processing := Toast("Processando com IA", "Analisando " + Decimal(|search.data|) + " resultados...", false);
      if !prospect.success then
        start + [processing] + [Toast("Erro na busca", OrDefault(prospect.error, "Erro ao processar leads"), true)]
      else
        start + [processing] + [Toast("Busca concluída!", "Encontrados " + Decimal(|prospect.leads.GetOr([])|) + " potenciais leads.", false)]
  }

  /** The button of a listed candidate is disabled once its name was added. */
  predicate AddDisabled(addedLeads: set<string>, c: Candidate) {
    c.name in addedLeads
  }

  class Panel {
    var city: string
    var businessType: string
    var isSearching: bool
    var isProcessing: bool
    var leads: seq<Candidate>
    var addedLeads: set<string>

    constructor()
      ensures city == "" && businessType == "lojas de produtos de limpeza"
      ensures !isSearching && !isProcessing && leads == [] && addedLeads == {}
    {
      city := "";
      businessType := "lojas de produtos de limpeza";
      isSearching := false;
      isProcessing := false;
      leads := [];
      addedLeads := {};
    }

    /** The search button is disabled while a search runs. */
    predicate SearchDisabled()
      reads this
    {
      isSearching || isProcessing
    }

    method EditCity(text: string)
      modifies this
      ensures city == text && businessType == old(businessType)
      ensures isSearching == old(isSearching) && isProcessing == old(isProcessing)
      ensures leads == old(leads) && addedLeads == old(addedLeads)
    {
      city := text;
    }

    method EditBusinessType(text: string)
      modifies this
      ensures businessType == text && city == old(city)
      ensures isSearching == old(isSearching) && isProcessing == old(isProcessing)
      ensures leads == old(leads) && addedLeads == old(addedLeads)
    {
      businessType := text;
    }

    /** `handleSearch` once both services have answered. Invalid input shows the
        first issue and changes nothing. Otherwise the list is emptied, the query
        is sent with a limit of 15 results, and the list and the toasts end as `Found` and `SearchToasts`
        say. Both busy flags are false at the end on every path. */
    method HandleSearch(search: SearchReply, prospect: ProspectReply)
      returns (request: Option<SearchRequest>, toasts: seq<Toast>)
      modifies this
      ensures city == old(city) && businessType == old(businessType) && addedLeads == old(addedLeads)
      ensures SearchIssues(city, businessType) != [] ==>
                && request == None
                && toasts == [Toast("Dados inválidos", FirstMessage(SearchIssues(city, businessType)), true)]
                && leads == old(leads) && isSearching == old(isSearching) && isProcessing == old(isProcessing)
      ensures SearchIssues(city, businessType) == [] ==>
                && request == Some(SearchRequest(BuildQuery(Trim(businessType), Trim(city)), SearchLimit))
                && request.value.limit == 15
                && leads == Found(search, prospect)
                && toasts == SearchToasts(Trim(businessType), Trim(city), search, prospect)
                && !isSearching && !isProcessing
    {
      var issues := SearchIssues(city, businessType);
      if issues != [] {
        return None, [Toast("Dados inválidos", FirstMessage(issues), true)];
      }
      var validCity, validType := Trim(city), Trim(businessType);
      request := Some(SearchRequest(BuildQuery(validType, validCity), SearchLimit));
      toasts := RunSearch(validType, validCity, search, prospect);
    }

    /** The part of `handleSearch` after validation, given the validated values. */
    method RunSearch(validType: string, validCity: string, search: SearchReply, prospect: ProspectReply)
      returns (toasts: seq<Toast>)
      modifies this
      ensures leads == Found(search, prospect)
      ensures toasts == SearchToasts(validType, validCity, search, prospect)
      ensures !isSearching && !isProcessing
      ensures city == old(city) && businessType == old(businessType) && addedLeads == old(addedLeads)
    {
      isSearching := true;
      leads := [];
      toasts := [Toast("Buscando...", "Procurando " + validType + " em " + validCity, false)];
      if !search.success {
        toasts := toasts + [Toast("Erro na busca", OrDefault(search.error, "Erro na busca"), true)];
      } else if |search.data| == 0 {
        toasts := toasts + [Toast("Nenhum resultado", NoResults, false)];
        isSearching := false;
      } else {
        isProcessing := true;
        toasts := toasts + [Toast("Processando com IA", "Analisando " + Decimal(|search.data|) + " resultados...", false)];
        if !prospect.success {
          toasts := toasts + [Toast("Erro na busca", OrDefault(prospect.error, "Erro ao processar leads"), true)];
        } else {
          leads := prospect.leads.GetOr([]);
          toasts := toasts + [Toast("Busca concluída!", "Encontrados " + Decimal(|leads|) + " potenciais leads.", false)];
        }
      }
      isSearching := false;
      isProcessing := false;
    }

    /** A click on a listed candidate's add button. A disabled button does
        nothing; otherwise the candidate is promoted, its name recorded, and a
        toast confirms it. */
    method ClickAdd(c: Candidate) returns (promoted: Option<LeadDraft>, toast: Option<Toast>)
      requires c in leads
      modifies this
      ensures old(AddDisabled(addedLeads, c)) ==> promoted == None && toast == None && addedLeads == old(addedLeads)
      ensures !old(AddDisabled(addedLeads, c)) ==>
                && promoted == Some(Promote(c))
                && addedLeads == old(addedLeads) + {c.name}
                && toast == Some(Toast("Lead adicionado!", c.name + " foi adicionado à sua lista.", false))
      ensures AddDisabled(addedLeads, c) && old(addedLeads) <= addedLeads
      ensures city == old(city) && businessType == old(businessType) && leads == old(leads)
      ensures isSearching == old(isSearching) && isProcessing == old(isProcessing)
    {
      if c.name in addedLeads {
        return None, None;
      }
      promoted := Some(Promote(c));
      addedLeads := addedLeads + {c.name};
      toast := Some(Toast("Lead adicionado!", c.name + " foi adicionado à sua lista.", false));
    }
  }

  /** Two clicks on candidates with the same name promote one lead. */
  method NoDoublePromotion(c: Candidate, d: Candidate) returns (first: Option<LeadDraft>, second: Option<LeadDraft>)
    requires c.name == d.name
    ensures first.Some? && second.None?
  {
    var panel := new Panel();
    panel.leads := [c, d];
    var toast;
    first, toast := panel.ClickAdd(c);
    second, toast := panel.ClickAdd(d);
  }
}
