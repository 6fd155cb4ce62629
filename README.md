# dashvendas in Dafny

A model of the lead dashboard of the "Vital Sales Pro" sales application: the
lead list page (`Index`) and its older single-component predecessor (`App`),
the lead card, the "new lead" dialog, the chat panel, the prospecting panel
and the edge function behind it, the login/sign-up page and the profile page.

Modules follow the source files:

- `Text`: the JavaScript string primitives the pages use (`trim`, `length` in
  UTF-16 code units, `includes`, `parseInt`, decimal rendering).
- `Schema`: the part of zod's string schemas the forms use (length, pattern
  and email checks, issue lists, the `path[0] -> message` error map).
- `Leads`: the shared records (lead, draft, chat message, sort and filter
  options, AI replies, toasts).
- `LeadCard`, `LeadForm`, `LeadList` (the filtered and sorted list and the
  stats of `Index`), `IndexPage`, `AppPage`, `ChatInterface`, `Prospector`,
  `ProspectorFunction`, `AuthPage`, `ProfilePage`.

Pages whose state changes are classes (`IndexPage.LeadStore`,
`AppPage.SalesAgent`, `ChatInterface.ChatBox`, `Prospector.Panel`,
`AuthPage.Page`, `ProfilePage.Page`). Each handler is a method whose
`ensures` gives the whole new state. An awaited call is a parameter: the AI
reply, the search and extraction replies, the authentication result, the
profile query. The handler then runs to completion with that answer. The
pure rules (schemas, colours, sorting, parsing) are functions with lemmas.

Things the model takes as parameters:

- the browser's `localeCompare` (`nameLe`, assumed a total preorder where
  sortedness is claimed);
- zod's email pattern (`emailFormat`);
- `JSON.parse` (`parse`);
- the clock text behind `toLocaleTimeString`.

## Model

| member | source | states |
|---|---|---|
| Text.Trim | src/pages/Auth.tsx:14 | the trimmed text is an infix of the input, never longer, with no white space at either end |
| Text.TrimIdempotent | src/pages/Profile.tsx:15 | trimming twice is trimming once |
| Text.TrimEmptyIffAllSpace | src/components/ChatInterface.tsx:36 | a text trims to "" exactly when every character is white space |
| Text.Utf16Length | src/components/LeadForm.tsx:38-39 | the length the bounds count lies between the number of code points and twice that, and equals it for text without astral characters |
| Text.ContainsIff | src/pages/Index.tsx:116 | `includes` holds exactly when the substring starts at some index |
| Text.DecimalRoundTrip | src/components/LeadProspector.tsx:83-96 | reading back the decimal rendering of a count gives the count |
| Text.ParseIntOfDecimal | src/pages/Index.tsx:116 | `parseInt` (`Text.ParseInt`) of a number followed by a non-digit is that number |
| Text.ParseIntNaN | src/pages/Index.tsx:116-118 | `parseInt` is NaN when neither a sign nor a digit follows the leading white space |
| Schema.FieldIssues | src/components/LeadForm.tsx:35-45 | a field raises at most one issue per check, all on its own path, none exactly when every check passes, and the first check's issue first when it fails |
| Schema.IssueFromFailedCheck | src/pages/Auth.tsx:13-17 | every issue carries the message of a check the value fails |
| Schema.FirstMessage | src/components/LeadProspector.tsx:40 | the toast text is the first issue's message when that is non-empty, otherwise the fallback, and is never empty |
| Schema.ErrorMapSpec | src/pages/Auth.tsx:72-75 | the error map has an entry exactly for the fields with an issue, holding that field's last issue's message |
| Schema.ErrorMapLast | src/pages/Auth.tsx:73-75 | a later issue overwrites its field's entry |
| Schema.ErrorMapUnaffected | src/pages/Auth.tsx:73-75 | later issues on other fields leave a field's entry as it was |
| Schema.CollectErrors | src/pages/Auth.tsx:72-75 | the `forEach` loop builds exactly the error map |
| Leads.ParseStatus | src/components/LeadForm.tsx:51-53 | the enum accepts exactly "quente", "morno" and "frio", and the accepted status names the input |
| Leads.StatusNameRoundTrip | src/components/LeadForm.tsx:51-53 | parsing a status's name gives the status back |
| Leads.WithId | src/pages/Index.tsx:135 | the stored lead has the given id and keeps the draft's fields |
| Leads.LastLeadMessageSpec | src/pages/Index.tsx:222 | a last lead message exists exactly when the lead has spoken, and it is a lead message with no lead message after it |
| Leads.TimeLabel | src/pages/Index.tsx:184 | the time label is the first five characters of the clock text, or all of it when shorter |
| LeadCard.ScoreVariantOf | src/components/LeadCard.tsx:22-26 | success exactly from 80, warning exactly from 60 to 79, hot exactly below 60 |
| LeadCard.StatusVariantOf | src/components/LeadCard.tsx:28-32 | each status has its own variant, both ways |
| LeadCard.StatusDot | src/components/LeadCard.tsx:34-38 | each status has its own dot colour, both ways |
| LeadCard.BadgeMatchesVariant | src/components/LeadCard.tsx:62-67 | for every score exactly one conditional badge class is present, the one of the score's variant |
| LeadCard.StatusDotInjective | src/components/LeadCard.tsx:34-38 | two statuses share a dot colour only when they are equal |
| LeadForm.NameIssuesIff | src/components/LeadForm.tsx:35-39 | the name raises no issue exactly when it has 2 to 100 characters |
| LeadForm.PhoneIssuesIff | src/components/LeadForm.tsx:40-45 | the phone raises no issue exactly when it has 10 to 20 characters, all digits, spaces, `-`, `(` or `)` |
| LeadForm.InterestIssuesIff | src/components/LeadForm.tsx:46-50 | the interest raises no issue exactly when it has 3 to 100 characters |
| LeadForm.NotesIssuesIff | src/components/LeadForm.tsx:54-58 | the notes raise no issue exactly when they have at most 500 characters |
| LeadForm.FormIssues | src/components/LeadForm.tsx:34-59 | the form raises no issue exactly when the trimmed fields meet all bounds and the status is one of the three |
| LeadForm.ScoreFor | src/components/LeadForm.tsx:82 | quente scores 85, morno 60, frio 35 |
| LeadForm.Submit | src/components/LeadForm.tsx:81-94 | a submission is rejected exactly when the schema refuses it, and then carries the non-empty issue list |
| LeadForm.SubmittedDraft | src/components/LeadForm.tsx:84-92 | an accepted submission builds a lead with the chosen status and its score, the trimmed fields, contact "Agora", and the notes or a fixed text as history |
| LeadForm.DefaultStatusIsMorno | src/components/LeadForm.tsx:72-78 | the default status is a valid status, morno |
| LeadForm.CreatedScoreMatchesCardBucket | src/components/LeadForm.tsx:82 | a form-created lead's card badge matches its status: quente success, morno warning, frio hot |
| LeadForm.PhoneNeedsNoDigits | src/components/LeadForm.tsx:43-45 | ten to twenty dashes pass the phone checks although they hold no digit |
| LeadList.Filter | src/pages/Index.tsx:96-99 | the filtered list holds exactly the leads the filter admits, and all of them for "all" |
| LeadList.FilterAppend | src/pages/Index.tsx:96-99 | filtering a concatenation filters each part in turn, so the admitted leads keep their relative order |
| LeadList.FilterSingle | src/pages/Index.tsx:97-98 | a single lead is kept exactly when the filter admits its status |
| LeadList.FilterCount | src/pages/Index.tsx:96-99 | an admitted lead occurs in the filtered list as often as in the list, any other lead not at all |
| LeadList.OrElse | src/pages/Index.tsx:116-118 | `parseInt(s) \|\| d` is the number unless it is NaN or 0, then the default |
| LeadList.Insert | src/pages/Index.tsx:102 | inserting adds exactly one element, keeping the others |
| LeadList.InsertSorted | src/pages/Index.tsx:102-127 | inserting into a sorted list keeps it sorted |
| LeadList.Sort | src/pages/Index.tsx:102-127 | the sorted list is a permutation of the input |
| LeadList.InsertTied | src/pages/Index.tsx:102-127 | insertion puts the new element before the elements tied with it and keeps their order |
| LeadList.SortStable | src/pages/Index.tsx:102-127 | the sort is stable: for any `x`, the elements the comparator ties with `x` come out in input order |
| LeadList.SortSorted | src/pages/Index.tsx:102-127 | the sorted list is ordered whenever the comparator is a total preorder |
| LeadList.KeyOrderIsPreorder | src/pages/Index.tsx:103-125 | the score and recency comparators (`LeadList.Before`) are total preorders whatever `localeCompare` does |
| LeadList.BeforeIsPreorder | src/pages/Index.tsx:103-125 | every sort option's comparator (`LeadList.Before`) is a total preorder, the name ones when `localeCompare` is |
| LeadList.ParseTimeOf | src/pages/Index.tsx:115-120 | `parseTime` (`LeadList.ParseTime`): with a non-zero leading number, "min" gives minutes, else "hora" hours, else "dia" days |
| LeadList.UnitDescription | src/pages/Index.tsx:116-118 | "N word..." contains the word and `parseInt` reads N from it |
| LeadList.ParseTimeMinutes | src/pages/Index.tsx:116 | "N min..." reads as N minutes |
| LeadList.ParseTimeHours | src/pages/Index.tsx:117 | "N hora..." reads as N * 60 minutes when no "min" follows |
| LeadList.ParseTimeDays | src/pages/Index.tsx:118 | "N dia..." reads as N * 1440 minutes when neither "min" nor "hora" follows |
| LeadList.ParseTimeHoursExample | src/pages/Index.tsx:117 | "2 horas atrás" reads as 120 minutes |
| LeadList.ParseTimeMinutesExample | src/pages/Index.tsx:116 | "30 min atrás" reads as 30 minutes |
| LeadList.ParseTimeDaysExample | src/pages/Index.tsx:118 | "3 dias atrás" reads as 4320 minutes |
| LeadList.ParseTimeNoUnitExample | src/pages/Index.tsx:119 | "Agora" names no unit and reads as 9999 |
| LeadList.MinutesTakePrecedence | src/pages/Index.tsx:116-117 | a description naming hours and then minutes reads as its leading number of minutes |
| LeadList.MinutesTakePrecedenceExample | src/pages/Index.tsx:116-117 | "5 horas e 10 min" reads as 5 minutes, not 300 |
| LeadList.ScoreDescExample | src/pages/Index.tsx:104-105 | scores 45, 95, 65 sort to 95, 65, 45 |
| LeadList.View | src/pages/Index.tsx:93-130 | the shown list is a permutation of the filtered leads, holds exactly the admitted ones, and is ordered by the chosen comparator |
| LeadList.ViewAll | src/pages/Index.tsx:94-99 | with "all" the view holds every lead as often as the list does |
| LeadList.ViewScoreOrder | src/pages/Index.tsx:104-107 | score sorts give non-increasing or non-decreasing scores |
| LeadList.ViewDateOrder | src/pages/Index.tsx:112-123 | "date-desc" puts smaller parsed ages (`LeadList.Recency`) first, "date-asc" larger ones |
| LeadList.ViewStable | src/pages/Index.tsx:93-127 | leads the chosen order cannot tell apart are shown in list order |
| LeadList.EqualScoresKeepOrder | src/pages/Index.tsx:104-107 | two leads with the same score keep their list order under either score sort |
| LeadList.MaxId | src/pages/Index.tsx:134 | the largest id is at least 0, bounds every id, and is 0 or some lead's id |
| LeadList.CountIsFilterLength | src/pages/Index.tsx:142 | the hot-lead count is the length of the list filtered to quente |
| LeadList.RoundedMean | src/pages/Index.tsx:144 | `Math.round(sum / n)` is the nearest integer to the mean, halves rounding up |
| LeadList.StatsOf | src/pages/Index.tsx:140-145 | the cards show the lead count, the hot count, "32%", and the rounded mean score, absent for an empty list |
| LeadList.AverageInRange | src/pages/Index.tsx:144 | scores between 0 and 100 give an average between 0 and 100 |
| IndexPage.PrependAboveMax | src/pages/Index.tsx:134-135 | putting a lead whose id exceeds the largest in front keeps ids positive and distinct |
| IndexPage.SeedTranscript | src/pages/Index.tsx:171-174 | a selected lead's chat starts with one message from the lead and one from you, neither from the AI |
| IndexPage.LeadStore.constructor | src/pages/Index.tsx:71-79 | the page starts with the four seeded leads, nothing selected, auto-response on, sorted by score descending, showing all |
| IndexPage.LeadStore.ChooseSort | src/pages/Index.tsx:358 | the sort select changes only the sort option |
| IndexPage.LeadStore.ChooseFilter | src/pages/Index.tsx:360 | the filter select changes only the status filter |
| IndexPage.LeadStore.AddLead | src/pages/Index.tsx:132-138 | the new lead gets the largest id plus one and goes in front; ids stay distinct and every older id is smaller |
| IndexPage.LeadStore.SelectLead | src/pages/Index.tsx:147-177 | selecting sets the lead and the seed transcript; the panel shows the analysis or the failure text with a toast; thinking ends |
| IndexPage.LeadStore.SendMessage | src/pages/Index.tsx:179-216 | the message is appended; with auto-response on and a lead selected, the AI reply follows, or a toast and nothing more on error |
| IndexPage.LeadStore.SuggestResponse | src/pages/Index.tsx:218-232 | as written: asks about the last lead message, and on a non-empty answer returns it with thinking still on |
| IndexPage.LeadStore.SuggestResponseFixed | src/pages/Index.tsx:218-232 | the same request, with thinking off on both outcomes |
| IndexPage.InitialIds | src/pages/Index.tsx:18-59 | the seeded leads have ids 1 to 4, distinct |
| IndexPage.LeadStore.Visible | src/pages/Index.tsx:93-130 | the page's list is a permutation of its filtered leads, holds exactly the admitted ones, and follows the chosen order |
| IndexPage.LeadStore.CurrentStats | src/pages/Index.tsx:140-145 | the cards count all leads and the hot ones, and have an average exactly when there are leads |
| IndexPage.InitialStats | src/pages/Index.tsx:140-145 | the seeded page shows 4 leads, 2 hot, "32%" and an average score of 73 |
| IndexPage.NextIdExample | src/pages/Index.tsx:134 | with ids 1, 3 and 4 the next lead gets id 5 |
| IndexPage.SuggestLeavesThinking | src/pages/Index.tsx:226-231 | after a successful suggestion the page is still thinking |
| IndexPage.SuggestFixedEndsIdle | src/pages/Index.tsx:226-231 | with the corrected handler the page is idle after the same steps |
| ChatInterface.ChatBox.constructor | src/components/ChatInterface.tsx:32-33 | the input starts empty and no suggestion is loading |
| ChatInterface.ChatBox.Type | src/components/ChatInterface.tsx:127 | typing sets the input text only |
| ChatInterface.ChatBox.HandleSend | src/components/ChatInterface.tsx:35-39 | a blank input sends nothing; otherwise the untrimmed text is sent once and the input cleared |
| ChatInterface.ChatBox.BeginSuggest | src/components/ChatInterface.tsx:41-43 | a suggestion starts loading |
| ChatInterface.ChatBox.EndSuggest | src/components/ChatInterface.tsx:43-48 | only a non-empty suggestion replaces the input, and loading ends |
| ChatInterface.SendWhenEnabled | src/components/ChatInterface.tsx:133-134 | a click on an enabled send button always sends a non-blank text |
| ChatInterface.SuggestRoundTrip | src/components/ChatInterface.tsx:114-115 | the suggest button is disabled during the fetch and afterwards depends only on the page's thinking flag |
| Prospector.CityIssuesIff | src/components/LeadProspector.tsx:12-16 | the city raises no issue exactly when it has 2 to 100 characters, all letters, spaces, `,`, `'` or `-` |
| Prospector.BusinessTypeIssuesIff | src/components/LeadProspector.tsx:17-20 | the business type raises no issue exactly when it has 3 to 100 characters |
| Prospector.SearchIssues | src/components/LeadProspector.tsx:11-21 | the search raises no issue exactly when both trimmed fields meet their bounds |
| Prospector.BuildQuery | src/components/LeadProspector.tsx:56 | the query is the business type, " em ", the city, " telefone contato", in that order |
| Prospector.PromotionStatus | src/components/LeadProspector.tsx:112 | quente exactly from 70, morno exactly from 40 to 69, frio exactly below 40 |
| Prospector.ScoreColor | src/components/LeadProspector.tsx:131-135 | emerald from 70, amber from 40, red below |
| Prospector.ScoreColorMatchesStatus | src/components/LeadProspector.tsx:131-135 | the candidate colour picks the same bucket as the promotion status |
| Prospector.PromotionDisagreesWithCard | src/components/LeadProspector.tsx:112 | a candidate scored 75 is promoted quente but its card shows the warning badge, and one scored 50 is morno with the hot badge |
| Prospector.NotesOf | src/components/LeadProspector.tsx:120 | the notes are exactly the candidate's notes, then " \| Endereço: " and the address when present, then " \| Site: " and the site when present, with nothing else |
| Prospector.PhoneOf | src/components/LeadProspector.tsx:116 | the phone is the candidate's, or "Não informado", and never empty |
| Prospector.Promote | src/components/LeadProspector.tsx:111-121 | as written: the lead carries name, phone, score, status, interest and notes, but no last contact and no history |
| Prospector.PromotedLeadBreaksDateSort | src/components/LeadProspector.tsx:114-121 | a promoted lead next to any other makes both date sorts throw |
| Prospector.PromoteFixed | src/components/LeadProspector.tsx:114-121 | the corrected lead also has contact "Agora" and its notes as history |
| Prospector.FixedPromotionKeepsDateSort | src/components/LeadProspector.tsx:114-121 | with the corrected promotion in front of leads that all have a contact, no filter and no sort throws |
| Prospector.Found | src/components/LeadProspector.tsx:65-92 | candidates are listed only when the search found results and the extraction succeeded, and then they are the extracted ones |
| Prospector.SearchToasts | src/components/LeadProspector.tsx:56-104 | "Buscando..." first, "Processando com IA" with the result count exactly when results were found, then the error, "Nenhum resultado" or "Busca concluída!" with the count last; only errors are destructive |
| Prospector.Panel.constructor | src/components/LeadProspector.tsx:29-34 | empty city, the default business type, idle, no candidates, nothing added |
| Prospector.Panel.EditCity | src/components/LeadProspector.tsx:152 | typing changes the city only |
| Prospector.Panel.EditBusinessType | src/components/LeadProspector.tsx:161 | typing changes the business type only |
| Prospector.Panel.HandleSearch | src/components/LeadProspector.tsx:36-109 | invalid input shows the first issue and changes nothing; valid input sends the query with a limit of 15 results, lists `Found` and shows `SearchToasts`; both busy flags end false |
| Prospector.Panel.RunSearch | src/components/LeadProspector.tsx:52-108 | after validation the list ends as `Found` and the toasts as `SearchToasts`, with both busy flags false |
| Prospector.Panel.ClickAdd | src/components/LeadProspector.tsx:111-129 | a disabled button does nothing; otherwise the candidate is promoted once and its name recorded |
| Prospector.NoDoublePromotion | src/components/LeadProspector.tsx:217-219 | two clicks on candidates of the same name promote one lead |
| ProspectorFunction.MatchSpan | supabase/functions/lead-prospector/index.ts:109 | a span exists exactly when a `{` comes before a `}`, and it runs from the first `{` to the last `}` |
| ProspectorFunction.MatchSpanShape | supabase/functions/lead-prospector/index.ts:109 | the span starts with `{`, ends with `}` and has at least two characters |
| ProspectorFunction.MatchSpanIdempotent | supabase/functions/lead-prospector/index.ts:109 | matching inside the span gives the span back |
| ProspectorFunction.ExtractLeads | supabase/functions/lead-prospector/index.ts:107-116 | no span or no parse gives no leads; non-empty leads are exactly the parsed `leads` of the span |
| ProspectorFunction.WrappedObject | supabase/functions/lead-prospector/index.ts:109-113 | prose without braces around one object yields exactly that object |
| ProspectorFunction.ProseAroundObject | supabase/functions/lead-prospector/index.ts:109-113 | a reply wrapping `{"leads": []}` in prose gives that object to the parser |
| ProspectorFunction.TwoObjectsOneSpan | supabase/functions/lead-prospector/index.ts:109 | two objects are not split: the span covers both and the prose between them |
| ProspectorFunction.NoBraceNoSpan | supabase/functions/lead-prospector/index.ts:109-113 | a reply without `{` has no span and yields no leads, whatever the parser |
| ProspectorFunction.Handle | supabase/functions/lead-prospector/index.ts:22-131 | 401, 400, 500 in that order of checks; success exactly when all pass, then 200 with the extracted leads; every failure has an error and no leads |
| ProspectorFunction.MissingResultsIgnoresAi | supabase/functions/lead-prospector/index.ts:35-40 | a request without results gets 400 whatever the key, the gateway and the parser |
| ProspectorFunction.EmptyResultsReachAi | supabase/functions/lead-prospector/index.ts:35 | an empty array of results passes the check and succeeds |
| ProspectorFunction.UnparsedReplySucceedsEmpty | supabase/functions/lead-prospector/index.ts:107-123 | a reply the parser cannot read still answers 200 with no leads |
| AppPage.ScoreColor | src/App.jsx:161-165 | green from 80, yellow from 60, red below |
| AppPage.StatusColorMatchesCardDot | src/App.jsx:167-171 | `getStatusColor` (`AppPage.StatusColor`) gives two statuses the same colour exactly when they are equal, as with the lead card's dots |
| AppPage.ScoreColorMatchesCardVariant | src/App.jsx:161-165 | this page's score colour picks the same bucket as the lead card's variant |
| AppPage.LeadOf | src/App.jsx:179-188 | the added lead carries the form's fields, contact "Agora mesmo", the history or a fixed text, and no notes |
| AppPage.AppSeedTranscript | src/App.jsx:119-122 | a selected lead's chat starts with one message from the lead and one from you |
| AppPage.SalesAgent.CurrentStats | src/App.jsx:29-34 | the cards count all leads and the hot ones, and have an average exactly when there are leads |
| AppPage.SalesAgent.constructor | src/App.jsx:6-27 | the page starts with its four seeded leads, an empty form and auto-response on |
| AppPage.SalesAgent.ToggleAutoResponse | src/App.jsx:222 | the switch flips auto-response only |
| AppPage.SalesAgent.TypeMessage | src/App.jsx:424 | typing changes the chat input only |
| AppPage.SalesAgent.EditForm | src/App.jsx:476-548 | editing changes the form only |
| AppPage.SalesAgent.AddLead | src/App.jsx:173-201 | an empty name, phone or interest alerts and changes nothing; otherwise the lead is appended with id count plus one and the form is reset; ids stay positions |
| AppPage.SalesAgent.SelectLead | src/App.jsx:116-123 | selecting sets the lead, the seed transcript and the analysis; thinking ends |
| AppPage.SalesAgent.SendMessage | src/App.jsx:125-146 | a blank input does nothing; otherwise the text is appended and the input cleared, and with auto-response on the lead's AI reply to that text follows |
| AppPage.SalesAgent.GetSuggestedResponse | src/App.jsx:148-159 | the most recent lead message, when it is non-empty, is answered into the input; thinking ends either way |
| AppPage.AppInitialIds | src/App.jsx:6-11 | the seeded leads' ids are their positions |
| AppPage.PositionIdsDistinct | src/App.jsx:180 | when ids are positions they are distinct and the largest is the count, so the next id is new |
| AppPage.PositionMaxId | src/App.jsx:180 | the largest of ids 1..n is n |
| AuthPage.EmailIssues | src/pages/Auth.tsx:13-17 | the email raises no issue exactly when, trimmed, it has 1 to 255 characters and the email format |
| AuthPage.PasswordIssues | src/pages/Auth.tsx:18-20 | the password, untrimmed, raises no issue exactly when it has 6 to 128 characters |
| AuthPage.NameIssues | src/pages/Auth.tsx:24-28 | the name raises no issue exactly when, trimmed, it has 2 to 100 letters, spaces, `'` or `-` |
| AuthPage.LoginIssues | src/pages/Auth.tsx:12-21 | login raises no issue exactly when email and password are accepted |
| AuthPage.SignUpIssues | src/pages/Auth.tsx:23-41 | sign-up raises no issue exactly when all fields are accepted and the passwords match; a mismatch is exactly a last issue on `confirmPassword` |
| AuthPage.EmptyEmailIssues | src/pages/Auth.tsx:13-17 | an empty email raises the required issue and then the format issue |
| AuthPage.EmptyNameIssues | src/pages/Auth.tsx:24-28 | an empty name raises the length issue and then the letters issue |
| AuthPage.RequiredEmailNeverShown | src/pages/Auth.tsx:70-76 | the email error shown is never "Email é obrigatório"; a blank email shows "Email inválido" |
| AuthPage.EmptyNameShowsLettersMessage | src/pages/Auth.tsx:99-111 | a blank name shows the letters message, not the length message |
| AuthPage.LoginFailure | src/pages/Auth.tsx:84-92 | a failed login toast is destructive and translates only the bad-credentials message |
| AuthPage.SignUpOutcome | src/pages/Auth.tsx:118-137 | the toast is destructive exactly when the service reported an error; success says "Conta criada!", a failure one of the two error titles |
| AuthPage.DuplicateAccountToast | src/pages/Auth.tsx:119-125 | any message containing "already registered" gives the duplicate-account toast |
| AuthPage.OtherSignUpFailure | src/pages/Auth.tsx:126-132 | any other failure shows the service's message as it came |
| AuthPage.Page.constructor | src/pages/Auth.tsx:46-58 | both forms start empty, with no errors and nothing submitting |
| AuthPage.Page.EditLogin | src/pages/Auth.tsx:183-201 | typing changes the login form only |
| AuthPage.Page.EditSignUp | src/pages/Auth.tsx:234-288 | typing changes the sign-up form only |
| AuthPage.Page.HandleLogin | src/pages/Auth.tsx:66-93 | invalid input sets the error map and calls nothing; valid input clears the errors and calls the service with the fields as typed |
| AuthPage.Page.SubmitLogin | src/pages/Auth.tsx:80-92 | the call carries the typed fields; a toast appears only when the service failed |
| AuthPage.Page.HandleSignUp | src/pages/Auth.tsx:95-139 | invalid input sets the error map and calls nothing; valid input clears the errors, calls the service and always toasts |
| AuthPage.Page.SubmitSignUp | src/pages/Auth.tsx:115-138 | the call carries email, password and name as typed, and the toast is the outcome's |
| AuthPage.LoginCallsIffAccepted | src/pages/Auth.tsx:70-81 | the service is called exactly when email and password are accepted |
| AuthPage.PaddedEmailAccepted | src/pages/Auth.tsx:13-20 | " a@b.co " passes the trimmed checks |
| AuthPage.PaddedEmailReachesService | src/pages/Auth.tsx:81 | the padded email reaches the service with its spaces |
| ProfilePage.ProfileIssues | src/pages/Profile.tsx:13-19 | the profile name raises no issue exactly when sign-up would accept it, and every issue is on `fullName` |
| ProfilePage.BlankNameMessage | src/pages/Profile.tsx:68-71 | a blank name raises only the length issue, and the toast shows it |
| ProfilePage.SavedNameIsStable | src/pages/Profile.tsx:79 | a saved name passes again and saves unchanged |
| ProfilePage.Page.constructor | src/pages/Profile.tsx:24-26 | empty name, loading, not saving |
| ProfilePage.Page.EditName | src/pages/Profile.tsx:141 | typing changes the name only |
| ProfilePage.Page.FetchProfile | src/pages/Profile.tsx:34-62 | with a user, loading ends; a row sets the name (null becoming ""); only errors other than "no rows" and exceptions are logged |
| ProfilePage.Page.HandleSave | src/pages/Profile.tsx:64-91 | no user does nothing; an invalid name toasts its first issue; a valid one is saved trimmed, toasts success or failure, and saving ends |
| ProfilePage.SavedNameAccepted | src/pages/Profile.tsx:75-80 | what reaches the table is accepted and has no surrounding spaces |

## Left out

- Rendering, routing, sign-out and the redirects of the auth effects, the dashboard charts, the stats card and AI panel components: presentation only.
- The AI prompts and the HTTP calls to the AI services, the search service and the authentication service. Their answers are parameters. A search call that throws (network failure) is not modelled; only the answers it returns are.
- `console` logging, except the profile fetch, where the model reports whether an error is logged.
- CORS preflight in the edge function, and its three thrown failures: `req.json()` on a malformed body, the AI gateway's `fetch` rejecting, and `response.json()` failing on the gateway's reply. Each reaches the catch and answers 500 with the error's message; the model has no input for them, as they are transport details.
- React's batching of state updates, and interleaving of concurrent async handlers. Each handler runs to completion with its awaited answer, and `ChatInterface` splits its handler at the await.
- `App`'s `setTimeout` delay: the auto-response is modelled as having run.
- `App`'s AI helper error path: it turns every failure into a fixed apology text, so the text is simply the parameter.
- Characters outside the Basic Multilingual Plane are counted as two by `Text.Utf16Length`, but `Trim` and the pattern classes work on code points.
- zod's email regular expression, `localeCompare` and `JSON.parse` are parameters (see above).
- `App`'s `parseInt(newLead.score)`: the range slider always yields a number from 0 to 100, so the score is an integer.
- A truthy non-array `leads` value in the parsed AI reply is out of scope: `ParsedReply` holds a candidate list or nothing.
- LeadList.View: requires that no date sort compares a lead lacking `lastContact`. The page throws a `TypeError` there, which the model does not represent beyond `DateSortThrows`.
- LeadList.Sort: an insertion sort stands for `Array.prototype.sort`. For a consistent comparator it gives a sorted permutation, and it is stable (`LeadList.SortStable`), as the engine's sort is. The engine's exact order for an inconsistent comparator is not modelled.

Where the code does something other than one might expect, the model follows the code:

- `App`'s add-lead check tests the fields for emptiness without trimming.
- The Enter key sends without consulting the thinking flag.
- The reply's JSON span is the greedy one from the first `{` to the last `}`, not "the first object".
- Both the login and sign-up handlers clear the error map before validating. The model computes the issues from the unchanged fields and then clears the map, which gives the same result.

## Findings

| source | as written | input that shows it | evidently intended | confidence | as-written member | corrected member |
|---|---|---|---|---|---|---|
| src/components/LeadProspector.tsx:114-121 | the promoted lead has no `lastContact` and no `history`; `Index` then calls `parseTime(undefined)` in the date sort, which throws | promote any candidate, then choose "date-desc" with at least one other lead shown | promoted leads carry a contact description like every other lead | not executed | Prospector.PromotedLeadBreaksDateSort | Prospector.FixedPromotionKeepsDateSort |
| src/pages/Index.tsx:226-231 | `handleSuggestResponse` returns the suggestion without clearing `isAiThinking`, so the chat's send and suggest buttons stay disabled | select a lead, then ask for a suggestion the service answers | thinking ends on both outcomes | not executed | IndexPage.SuggestLeavesThinking | IndexPage.SuggestFixedEndsIdle |
