# Proposal chatbot: conversation, pricing, catalog and documents

This project models the core of a lead-generation chatbot for a software
agency, written in Python with FastAPI. A web widget sends one request per chat turn:

- the current stage name;
- the session dictionary (`user_details`, including a `stage_history` stack);
- the text the user typed.

The service answers with the next stage, the updated session and a UI
directive such as buttons, a dropdown, a phone form or an upload field. Once
the user confirms, a background task does five things:

1. chooses the pricing data;
2. updates the lead record;
3. prices the proposal in the client's currency;
4. writes the client and sales PDF documents;
5. mails the documents.

Two versions of the service are modelled side by side, because their rules
differ:

- **The deployed service** (`backend/main.py`), modules `BackendChat` and
  `BackendTask`. Interrupts such as reset, help and back are checked first.
  The history skips repeated stages. Going back forgets only the name, and
  unknown stages fall through to general chat. Its proposal task never
  stops on a catalog miss; it uses a placeholder entry instead.
- **The first version** (root `main.py`), modules `LegacyChat` and
  `LegacyTask`. The back sentinel is checked first. Going back forgets the
  fields of the stage re-entered, and every recorded turn is pushed.
  Choices are matched exactly, phone numbers go through a parser, and
  stages without a rule are rejected. Its task stops on a catalog miss, on
  empty generated text, on missing mail credentials and on a client
  document that could not be saved.

Shared modules:

- `Stages`: the stage datatype and its wire names.
- `Sessions`: the session, replies and errors.
- `Countries`: both country tables.
- `Budget`: the budget buttons.
- `Pricing` (`proposal_logic.py`): the company-size discount table with
  Python's substring semantics, `safe_float`, and the cost sheet.
- `Catalog` (`excel_handler.py`, lines 42-90): cleaning and grouping of the
  spreadsheet rows.
- `Documents` (`pdf_writer.py`): the content of both PDFs as labelled lines.
- `LeadStore` (`mongo_handler.py`): the lead upsert and update.
- `Effects`: what a task does, recorded as a trace of calls.
- Supporting modules: `Assoc` (insertion-ordered dictionaries), `Text`
  (the Python `str` operations used), `Numbers` (decimal text, rounding,
  `:,.0f` and `:.0%`), `StringOrder` (sorted string lists) and `Wrappers`
  (`Option`/`Result`).

## Modelling choices

- **Each chat turn is a pure function.** It takes the catalog, the oracles,
  the stage, the session and the raw input, and returns
  `Result<Reply, ChatError>`.
- **Python exceptions become errors.**
  - A `KeyError` on a session key is `Err(MissingKey(k))`.
  - A country missing from the first version's table is
    `Err(UnknownCountry(c))`.
  - The first version's HTTP 400 is `Err(InvalidStage(name))`.
- **Bot messages are not modelled.** The next stage, the session and the UI
  directive are. So is `saveRequested`: whether the turn calls `save_lead`.
  What that call stores is `LeadStore.SaveLead`.
- **Tasks return an outcome.** A task returns the trace of effects, the
  catalog afterwards and the error that stopped it (logged, never raised).
  Each effect records the call and its arguments. `ClientContents` and
  `SalesContents` give what a written document shows.
- **The PDF writers can fail.** `PdfEnv` says whether the DejaVu fonts are
  installed and whether the writer can save its file.
  - Without the fonts, `setup_fonts` registers only Arial, and the header's
    `set_font("DejaVu")` raises. Both versions stop before any document, so
    the Arial fallback never produces one.
  - A failed save is printed and swallowed by the writer. The deployed mail
    helper then sends the mail without an attachment. The first version's
    helper opens the missing file and raises (`AttachmentNotSaved`).
- **Oracles are parameters.** The address validator, the phone library, the
  language-model calls (cost estimate and proposal text) and the pricing
  step of the task are all parameters. The ordering properties of the tasks
  hold for any pricing. `ServiceProposalTask` fixes both the pricing and
  the country table.
- **Dictionaries are insertion-ordered association lists.** Button lists
  follow key order, as Python's `dict` does.
- **`defaultdict` lookups are modelled.** The tasks index
  `services_data[m][sub][cat]`, and that lookup creates the two outer levels
  as a side effect. The model returns the grown catalog.
- **Arithmetic is on exact reals.** `:,.0f` is modelled as rounding half to
  even plus thousands grouping, and `:.0%` as a rounded percentage.
- **The subtotal is (`avg_cost_inr` + `optional_addons_cost_inr`) × rate**,
  not the sum of the six items. `Pricing.SubtotalVersusItems` states
  exactly when the two agree.

## Model

| member | source | states |
|---|---|---|
| Stages.Parse | backend/main.py:42-45 | a received stage name becomes a named stage exactly when it is one of the known names, otherwise `Unknown` carrying that text |
| Stages.NameOfParse | backend/main.py:42-45 | every stage string the client sends is reproduced unchanged in the reply |
| Stages.ParseOfName | backend/main.py:42-45 | reading back the wire name of any canonical stage gives that stage |
| Stages.NameInjective | backend/main.py:42-45 | two canonical stages with the same wire name are the same stage |
| Sessions.InputText | backend/main.py:149 | absent input is "", anything else is stripped of surrounding whitespace; the first version reads its input the same way (main.py line 147) |
| Sessions.RemoveField | backend/main.py:133 | `pop(k, None)` removes `k` and leaves every other field and the history as they were |
| Text.Strip | backend/main.py:149 | the stripped input is a slice of the input with only whitespace outside it; it is empty exactly for blank text, has no surrounding whitespace, and leaves already-stripped text unchanged |
| Text.Lower | backend/main.py:151 | lower-casing keeps the length and maps each character on its own |
| Text.SplitFirst | backend/main.py:229 | `split(":", 1)` finds nothing exactly when there is no colon; otherwise the input is the part before the first colon, the colon and the rest |
| Text.SplitFirstUnique | backend/main.py:229 | any decomposition at the first colon is the one the split returns |
| Text.RemoveChar | backend/main.py:231 | `replace(c, "")` removes every `c`, keeps every other character, and changes nothing when `c` is absent |
| Text.RemoveCharConcat | backend/main.py:231 | removing a character distributes over concatenation |
| Text.ReplaceChar | main.py:94 | `replace(a, b)` keeps the length and swaps exactly the `a`s for `b` |
| Numbers.NatToString | proposal_logic.py:39 | the decimal text of a number is non-empty digits, with a leading zero only for zero |
| Numbers.DigitsValueOfNatToString | proposal_logic.py:39 | the digits of `n` denote `n` |
| Numbers.ParseNatToString | proposal_logic.py:20 | `float(str(n))` reads back `n` |
| Numbers.RoundHalfEven | proposal_logic.py:39 | rounding lands within one half of the value and picks the even neighbour on a tie |
| Numbers.RoundNearest | proposal_logic.py:39 | without a tie, the rounding is the unique nearest integer |
| Numbers.SplitThousands | proposal_logic.py:39 | the digits of `n` of at least 1000 are the digits of `n / 1000` followed by the three padded low digits |
| Numbers.UngroupThousands | proposal_logic.py:39 | removing the grouping commas from the `,` format gives back the plain digits |
| Numbers.FormatMoney | proposal_logic.py:39 | a non-negative amount prints as its rounded value with thousands grouping |
| Numbers.FormatMoneyReadsBack | proposal_logic.py:39 | reading a formatted non-negative amount back, without commas, gives its rounded value |
| Numbers.PercentLabel | proposal_logic.py:71 | `:.0%` of a non-negative rate is its hundredfold, rounded, followed by a percent sign |
| StringOrder.LessTransitive | excel_handler.py:83 | Python's string order is transitive |
| StringOrder.LessTotal | excel_handler.py:83 | any two different strings are ordered one way or the other |
| StringOrder.LessAsymmetric | excel_handler.py:83 | the order never holds both ways |
| StringOrder.Insert | excel_handler.py:87 | inserting into a strictly sorted list keeps it strictly sorted and adds exactly the new element |
| StringOrder.SortedSet | excel_handler.py:87 | `sorted(set(xs))` is strictly sorted and holds exactly the elements of `xs` |
| StringOrder.SortedDistinct | excel_handler.py:87 | a strictly sorted list has no duplicates |
| Assoc.Get | backend/main.py:247 | a lookup finds nothing exactly when the key is not among the dictionary's keys |
| Assoc.Put | excel_handler.py:73 | assignment stores the value, leaves every other key's value alone, and appends a new key at the end of the key order |
| Assoc.MapValues | excel_handler.py:87 | a dict comprehension over the values keeps the keys and their order and transforms each value |
| Countries.NamesAreKeys | backend/main.py:140 | the phone form lists the deployed table's nine country names, and the first version's four, in declaration order |
| Countries.DeployedTableWellFormed | backend/country_data.py:4-12 | every deployed rate is positive and India is the rupee base with rate 1 |
| Countries.LegacyTableWellFormed | country_data.py:2-29 | every rate of the first version's table is positive and India is the rupee base with rate 1 |
| Countries.CountryOrIndia | backend/main.py:247 | a known country gives its own entry; any other name gives India's entry (+91, IN, the rupee sign, INR, rate 1); the rate is always positive |
| Budget.BudgetOption | backend/main.py:65-71 | each button starts with the currency symbol; a bounded range reads "a - b", the open one ends with '+' |
| Budget.BudgetOptionsShape | backend/main.py:60-72 | exactly four buttons, each starting with the symbol, the first three ranges "a - b" and the last ending with '+' |
| Budget.RoundingMonotone | backend/main.py:66-69 | rounding never reverses the order of two amounts |
| Budget.OptionAmountsAscending | backend/main.py:61-71 | with a positive rate each range's printed low end is at most its high end and at most the next range's low end |
| Budget.RangeAscending | backend/main.py:61-71 | for each of the three bounded ranges the converted low end is at most its high end and the next low end |
| Budget.ScaledOrder | backend/main.py:66-68 | converting two rupee amounts at a positive rate and rounding keeps their order |
| Budget.LocalBudgetOptions | backend/main.py:60-72 | one button per rupee range, in the order of the ranges |
| Budget.BoundedOptionReadsBack | backend/main.py:66-70 | for a non-negative rate, each of the three bounded buttons reads back, after the symbol, as its range's low end converted and rounded, then "- " and the symbol, then the high end converted and rounded |
| Budget.OpenOptionReadsBack | backend/main.py:66-71 | the last button ends with '+', and the text between the symbol and the '+' reads back as the open range's low end converted and rounded |
| Pricing.DiscountForCompanySize | proposal_logic.py:1-13 | the discount is always one of 0.40, 0.25, 0.15, 0.10, 0 |
| Pricing.DiscountTiers | proposal_logic.py:5-13 | 40% exactly for the substrings of "0-10", 25% exactly for the remaining substrings of "10-100", 15% only for "100-500", 10% only for "500+", none otherwise |
| Pricing.DeployedSizeLabelsGetNoDiscount | proposal_logic.py:5-13 | the deployed dropdown's "1-10", "11-50", "51-200" and "200+" all get no discount |
| Pricing.NoTier | proposal_logic.py:13 | a label outside every tier's accepted labels gets no discount |
| Pricing.LegacySizeLabelsDiscounts | proposal_logic.py:5-12 | the first version's four dropdown labels get 40%, 25%, 15% and 10% |
| Pricing.SafeFloat | proposal_logic.py:15-22 | a missing value or blank text reads as 0, a number as itself |
| Pricing.SafeFloatText | proposal_logic.py:17-22 | text that parses as a number reads as that number, any other text as 0 |
| Pricing.SafeFloatDigits | proposal_logic.py:20 | a whole number written in digits reads back as itself |
| Pricing.Components | proposal_logic.py:46-53 | six converted costs, in the order UI/UX, frontend, backend, QA, PM, add-ons, each the column read with `safe_float` times the rate |
| Pricing.TakeDiscount | proposal_logic.py:63-64 | the discount is the rate's share of the subtotal, discount plus total is the subtotal, and for a non-negative subtotal both lie between 0 and the subtotal |
| Pricing.Discounted | proposal_logic.py:63-64 | the final total is the subtotal times one minus the rate and never exceeds a non-negative subtotal |
| Pricing.ComputeAmounts | proposal_logic.py:55-64 | the subtotal is (average + add-ons) × rate, not the sum of the items; the discount uses the company-size rate; discount and total add up to the subtotal |
| Pricing.SubtotalVersusItems | proposal_logic.py:57-61 | the subtotal equals the sum of the six items exactly when the stored average equals the sum of the first five columns |
| Pricing.ScaledSums | proposal_logic.py:60-61 | scaling by a positive rate preserves the comparison between the average plus add-ons and the itemised sum |
| Pricing.DiscountRateLabels | proposal_logic.py:71 | the five possible rates print as "40%", "25%", "15%", "10%", "0%" |
| Pricing.PrepareProposalData | proposal_logic.py:24-74 | six items named as the components, in order, each the symbol and the formatted converted cost; then the subtotal, the rate label, the discount with a leading minus and the final total |
| Pricing.PreparedTotalsReadBack | proposal_logic.py:63-74 | for a non-negative subtotal, the subtotal, discount and final total texts read back, without commas, as the rounded amounts of the row, rate and company size |
| Pricing.PreparedItemsReadBack | proposal_logic.py:46-53 | each item carries its component's name, and a non-negative converted cost reads back as that cost rounded |
| Pricing.PreparedRateLabel | proposal_logic.py:71 | the printed rate is one of the five tier labels, and "0%" exactly when the company size earns no discount |
| Catalog.CleanCell | excel_handler.py:44-48 | an empty cell becomes empty text, numbers are kept, text is stripped |
| Catalog.NormalizeSubCategory | excel_handler.py:50-55 | an empty, blank or "nan" sub-category becomes `_default`, anything else is its stripped text; never empty |
| Catalog.NormalizeCategory | excel_handler.py:58 | an empty category becomes "Untitled Category", anything else is its stripped text; never empty |
| Catalog.CleanSheetRow | excel_handler.py:42-58 | a cleaned row carries the stripped main service and the normalised sub-category and category |
| Catalog.CleanSheets | excel_handler.py:40-58 | `Placed`: the output holds as many rows as all sheets together, and row `i` of sheet `j` sits at position `RowsBefore(sheets, j) + i`, cleaned with that sheet's main service; every cleaned row has a non-empty sub-category and category |
| Catalog.Put3 | excel_handler.py:73 | writing through three nested default dictionaries changes exactly the one entry and appends a new main service at the end |
| Catalog.GroupLookup | excel_handler.py:66-73 | the grouped entry for three keys is the last qualifying row with those keys: later rows overwrite earlier ones |
| Catalog.GroupMains | excel_handler.py:72-73 | a main service is grouped exactly when some row with a non-empty main service and category names it |
| Catalog.GroupAppCategories | excel_handler.py:76-77 | an App Development sub-category lists exactly the categories of its rows, never for `_default` |
| Catalog.GroupAppSubCategories | excel_handler.py:76-77 | an App Development sub-category appears exactly when some row contributes to it |
| Catalog.FirstSeenSubs | excel_handler.py:80-81 | the reference list of a service's sub-categories has no `_default`, no duplicates, and exactly the sub-categories of its rows |
| Catalog.FirstSeenGrows | excel_handler.py:80-81 | more rows only append to the first-seen list |
| Catalog.GroupOtherSubs | excel_handler.py:80-81 | the grouped sub-category list of a service other than App Development is the first-seen list, and the service is listed exactly when that list is non-empty |
| Catalog.Build | excel_handler.py:83-90 | the main-service list is strictly sorted and holds exactly the grouped services; each App Development list is sorted without duplicates |
| Catalog.LoadServiceData | excel_handler.py:36-38 | no sheets gives nothing; otherwise the built catalog with those sorted lists |
| Catalog.Lookup | backend/main.py:87 | indexing the nested default dictionaries finds the grouped row, and may add empty levels but no rows |
| Catalog.EmptyLevelsAdded | backend/main.py:87 | creating the two outer levels changes no two-level lookup |
| Documents.HeaderTitle | pdf_writer.py:16-19 | the sales title appears exactly on page 1 of a sales-lead document, the proposal title everywhere else |
| Documents.ProjectDisplayName | pdf_writer.py:91-96 | "Others (X)" when a custom name X is set and the category is "Others" or "Custom Service", otherwise the category or "N/A" |
| Documents.SalesProjectName | pdf_writer.py:195 | the custom name when set and non-empty, else the category or "N/A" |
| Documents.ProjectNamesAgree | pdf_writer.py:91-96 | the client line either wraps the sales line as "Others (...)" or shows the category, and both agree when no custom name is set |
| Documents.ServiceCategoryLine | pdf_writer.py:190-193 | the line starts with the main service or "N/A", followed by " > sub" only for a real, non-`_default` sub-category |
| Documents.DefaultSubCategoryIsSilent | pdf_writer.py:192 | a `_default` sub-category reads exactly like none |
| Documents.ClientNotes | pdf_writer.py:207-208 | the notes are the description, or the no-features sentence, between double quotes |
| Documents.CostTable | pdf_writer.py:117-133 | the breakdown items in order, then exactly Subtotal, "Volume Discount (rate)" and "Final Estimated Total" |
| Documents.ProposalCostTable | pdf_writer.py:117-133 | for a priced sheet the table has nine rows: the six components by name and the three totals, the discount labelled with the size tier's percentage |
| Documents.ClientOverview | pdf_writer.py:66-98 | five overview lines, the fourth the contact phone and the fifth the project display name |
| Documents.ProposalDocument | pdf_writer.py:50-133 | the proposal title, the overview, the introduction or empty text, and the cost table |
| Documents.SalesDetails | pdf_writer.py:178-201 | ten detail rows: the six client fields in order with "N/A" defaults, then service category, specific request, budget and final total |
| Documents.SalesLeadDocument | pdf_writer.py:149-208 | the sales title, the heading naming the company, the detail rows and the quoted notes |
| Documents.DefaultsOnlyForMissing | pdf_writer.py:179-185 | a client detail shows "N/A" exactly when the field is missing or is itself "N/A" |
| LeadStore.SaveLead | mongo_handler.py:30-46 | with a connection and an address the record of that address is created or merged, holding exactly the stored fields plus the given ones, with the given values winning; other records are untouched; otherwise nothing is written and failure is reported |
| LeadStore.UpdateLead | mongo_handler.py:48-63 | merges into an existing record only, which then holds exactly its stored fields plus the given ones; never creates one, and reports success whenever connected |
| LeadStore.SaveIdempotent | mongo_handler.py:36-40 | saving the same lead twice stores what saving it once does |
| LeadStore.UpdateNeedsSave | mongo_handler.py:54-57 | after a save the update reaches the record; an update alone on an empty store stores nothing |
| BackendChat.Push | backend/main.py:181-183 | the stage is pushed unless it is one of the six unrecorded stages or already on top |
| BackendChat.PushKeepsHistory | backend/main.py:181-183 | pushing keeps the history free of unrecorded stages and of equal neighbours |
| BackendChat.GoBackTo | backend/main.py:130-144 | going back lands on the target with the history given; only the name question forgets a field, the name |
| BackendChat.Back | backend/main.py:176-178 | an empty history stays on the stage with the session unchanged; otherwise the top entry is popped and re-entered |
| BackendChat.CleanNumber | backend/main.py:231 | the cleaned number holds no space and no dash |
| BackendChat.PhoneEntry | backend/main.py:228-232 | accepted exactly when there is a colon and the text after the first one is at least seven digits once spaces and dashes are gone |
| BackendChat.ResetFromAnyStage | backend/main.py:149-170 | "new proposal", "restart", "reset", "start over", in any case and with surrounding spaces, give `get_name` and an empty session from every stage |
| BackendChat.HelpStaysPut | backend/main.py:172-173 | "help", "support", "agent" keep the stage and the session, with nothing pushed |
| BackendChat.InterruptWordsDisjoint | backend/main.py:164-172 | no help phrase is a reset phrase |
| BackendChat.BackIsNotAWord | backend/main.py:154-176 | the back sentinel is caught by none of the phrase interrupts |
| BackendChat.BackPopsOne | backend/main.py:176-178 | back with an empty history changes nothing; otherwise one entry is popped and becomes the stage, and only `name` can be removed, when that entry is `get_name` |
| BackendChat.HistoryStaysWellFormed | backend/main.py:181-183 | every successful turn keeps unrecorded stages out of the history and no two neighbours equal |
| BackendChat.InterruptKeepsHistory | backend/main.py:154-178 | an interrupt keeps a well-formed history well formed |
| BackendChat.InterruptHistory | backend/main.py:154-178 | an interrupt empties the history, keeps it, or pops its top entry |
| BackendChat.PrefixKeepsHistory | backend/main.py:177 | a prefix of a well-formed history is well formed |
| BackendChat.Dispatch | backend/main.py:187-328 | a stage rule keeps the history, except that "Create" at the closing menu empties it, and a failure is always the missing key its stage looks up |
| BackendChat.PhoneAcceptance | backend/main.py:226-238 | the phone stage moves to `get_company` and calls `save_lead` exactly when the entry is accepted, storing the raw number and the text before the colon; otherwise it asks again with no field changed |
| BackendChat.ShortAnswersAskAgain | backend/main.py:189-198 | at `get_name` and `get_company` an answer shorter than two characters asks again without storing; otherwise exactly that field is set and the stage moves on |
| BackendChat.UnknownStagesChat | backend/main.py:328 | general chat, ended and unknown stage names hand the input to the general answer |
| BackendChat.HandleChat | backend/main.py:147-328 | an interrupt always answers; an ordinary turn fails exactly when the company size lacks a country, the sub-category lacks a main service, or the summary lacks the address, with that key as the error, and otherwise writes only the fields of the stage it answers |
| BackendChat.DispatchTouchesOwnFields | backend/main.py:187-285 | each stage rule writes only its own fields |
| BackendChat.DispatchFails | backend/main.py:245-286 | the stage rules fail exactly on those three direct lookups |
| BackendTask.SanitizeFilename | backend/main.py:74-75 | same length; each letter or digit kept in place, every other character an underscore |
| BackendTask.SanitizeIdempotent | backend/main.py:74-75 | a sanitised name holds only letters, digits and underscores, and sanitising twice equals once |
| BackendTask.ResolveSource | backend/main.py:81-88 | a non-empty custom name and data are used and rename the category; otherwise the catalog row, or the placeholder on a miss; a missing main service stops the task |
| BackendTask.WriteAndMailSteps | backend/main.py:100-125 | the steps after the lead update run in order and complete exactly when category, company, name and phone are present and the fonts are installed; without the fonts nothing is written |
| BackendTask.Attached | backend/utils.py:34-44 | a mail attaches its document exactly when the document could be saved |
| BackendTask.MissingFontsWriteNothing | pdf_writer.py:14-47 | without the fonts the task fails and the lead update is its only effect; a session that would otherwise complete fails on the fonts |
| BackendTask.StepsAfterUpdate | backend/main.py:92 | putting the lead update in front of an ordered tail gives an ordered trace |
| BackendTask.DeliverFollowsOrder | backend/main.py:78-127 | the trace is a prefix of lead update, client document, client mail, sales document, sales mail, and the whole sequence exactly when no error occurred |
| BackendTask.DeliverSucceedsIff | backend/main.py:85-125 | the task succeeds exactly when every key it reads is present, the country is in the table and the fonts are installed; a document that could not be saved does not stop it |
| BackendTask.LeadUpdatedFirst | backend/main.py:90-92 | the lead record, with `contact` set to the phone or "N/A", is the first effect; only a missing address stops the task before it |
| BackendTask.CompletedRunContents | backend/main.py:91-125 | on a completed run the client document gets the session with `contact` and shows the phone as contact phone; the client mail goes to the client's address and the sales mail to the sales team, each attaching the document just written exactly when it could be saved |
| BackendTask.WriteAndMailContents | backend/main.py:105-125 | with every key present and the fonts installed, the four effects carry the contact phone, the recipients, and the matching attachments when the documents could be saved |
| BackendTask.DeliverNeverBlamesMainService | backend/main.py:90-125 | the steps after the data source never fail on the main service |
| BackendTask.Introduction | backend/main.py:97-98 | a non-empty generated object with an introduction gives that introduction; nothing generated, or an empty object, gives "Proposal for <category>" (with "None" for a missing category); a non-empty object without one gives none |
| BackendTask.ProposalTask | backend/main.py:78-127 | the task never raises; its trace follows the fixed order, is whole exactly when no error occurred, is empty exactly when the main service or the address is missing; without the fonts it fails and writes no document; the catalog lookup adds no rows |
| BackendTask.ServiceProposalTask | backend/main.py:78-127 | with the deployed pricing and table, the task succeeds exactly when the data source resolves, every key read afterwards is present with a known country, and the fonts are installed |
| LegacyChat.Forget | main.py:123-142 | going back removes exactly the given fields and keeps the history |
| LegacyChat.BackComesFirst | main.py:150-152 | the back sentinel wins over every rule: an empty history changes nothing, otherwise one entry is popped and only that stage's fields are forgotten |
| LegacyChat.GoBackTo | main.py:122-143 | going back fails exactly for the budget without a known country, and for the sub-category or specific service without a main service; otherwise it forgets exactly the target's fields, keeps the history and lands on the target, except that a non-App sub-category goes back to the main-service question |
| LegacyChat.NewProposalKeepsName | main.py:153-155 | "new proposal" anywhere in the input, with a name stored, keeps only the name, empties the history and goes to `initial_choice` |
| LegacyChat.NewProposalNeedsName | main.py:153 | without a stored name the phrase is not intercepted |
| LegacyChat.Dispatch | main.py:158-229 | the stage rules never touch the history |
| LegacyChat.DispatchRules | main.py:158-230 | the phone, specific-service, description, closing and initial-choice stages answer with their own rule, and stages without a rule are rejected with their name |
| LegacyChat.HandleChat | main.py:146-230 | an ordinary turn at a recorded stage appends exactly that stage, repeats included, and at an unrecorded one keeps the history; an interrupt leaves a prefix of it |
| LegacyChat.PhoneTurnRules | main.py:169-176 | the phone rule accepts exactly a known country and a number the parser accepts, storing the parser's form and the country |
| LegacyChat.PhoneAcceptance | main.py:169-176 | a missing colon, an unknown country or a rejected number asks again with no field changed; success stores the E.164 form and the exact prefix, calls `save_lead` and moves on |
| LegacyChat.SpecificServiceRules | main.py:198-205 | an uncatalogued category becomes "Custom Service" named after the input; "Others" and unknown categories ask for a description, known ones move on |
| LegacyChat.SpecificServiceTurnRules | main.py:198-205 | the same rules on the recorded session |
| LegacyChat.OtherServiceNameKeepsExisting | main.py:206-207 | the custom name is set only when absent |
| LegacyChat.OtherServiceNameTurnRules | main.py:206-212 | a missing main service fails; otherwise a non-empty estimate moves to the optional features carrying the estimate, and no estimate or an empty one goes back to the category choice |
| LegacyChat.OtherServiceNameNext | main.py:206-212 | a whole turn at the description stage moves to the optional features exactly when the estimate is non-empty, and otherwise to the category choice |
| LegacyChat.UnhandledStagesRejected | main.py:230 | ended, post-engagement, job-email and unknown stages, and an initial choice that is neither button word for word, are rejected |
| LegacyChat.ClosingStagesEnd | main.py:222-229 | the closing stages end exactly on any input containing "no", "bye" or "goodbye" that is neither an upload notice nor a question about the proposal, and otherwise keep chatting |
| LegacyChat.KnowEndsChat | main.py:226 | the farewell test is a substring test: "i know" contains "no" and ends a general chat |
| LegacyTask.Slug | main.py:94 | same length; spaces and slashes become underscores, everything else kept |
| LegacyTask.SlugIsPathSafe | main.py:94-96 | a slug has no space or slash, and slugging twice equals once |
| LegacyTask.ResolveSource | main.py:80-86 | the custom estimate renames the category; otherwise the catalog row; a miss or a missing main service stops the task, and the lookup's empty levels stay |
| LegacyTask.WriteAndMailSteps | main.py:93-117 | the steps after pricing run in order and complete exactly when category, company and name are present, mail is configured, the fonts are installed and the client document could be saved; without mail or the saved document they stop at the client document, and without the fonts nothing is written |
| LegacyTask.ProceedReachesMail | main.py:89-97 | once priced with text in hand, the task is writing and mailing |
| LegacyTask.ProceedSteps | main.py:89-117 | everything after the lead update follows the fixed order and completes exactly under the completion conditions, which include the fonts and a saved document |
| LegacyTask.DeliverFollowsOrder | main.py:76-120 | the trace is a prefix of the five steps, the whole sequence exactly when the task succeeds, which it does exactly when every key is present, the country is known, text was generated, mail is configured, the fonts are installed and the documents can be saved |
| LegacyTask.LeadUpdatedFirst | main.py:87-88 | the lead record, with `contact`, is the first effect; only a missing address stops the task before it |
| LegacyTask.EmptyTextStopsAfterLead | main.py:91-92 | no generated text leaves exactly the lead update and reports the missing text |
| LegacyTask.UnconfiguredMailSendsNothing | main.py:98-117 | without mail credentials no mail is sent and at most the lead update and the client document happen |
| LegacyTask.ProceedWithoutMail | main.py:97-98 | without mail credentials, or with a client document that could not be saved, the steps after the lead update write at most the client document |
| LegacyTask.UnsavedDocumentSendsNothing | utils.py:22 | a client document that could not be saved makes the client mail raise: the task fails, nothing is mailed, and at most the lead update and the client document happen |
| LegacyTask.MissingFontsWriteNothing | pdf_writer.py:14-47 | without the fonts the task fails and the lead update is its only effect; a lead that would otherwise complete fails on the fonts |
| LegacyTask.CatalogMissStops | main.py:86 | a category the catalog lacks stops the task before any effect, leaving the main service in the catalog |
| LegacyTask.ProposalTask | main.py:76-120 | the task never raises; its trace follows the fixed order and is whole exactly when no error occurred; without mail credentials, or with a document that could not be saved, no mail is sent; without the fonts no document is written; the catalog lookup adds no rows |
| LegacyTask.ServiceProposalTask | main.py:76-120 | with the first version's pricing and table, the task succeeds exactly when the data source resolves, the address is present and the remaining steps complete, fonts and saved documents included |

## Left out

- Bot message texts, including the confirmation summaries, are not modelled. Only whether a turn can fail while building them is.
- The language-model calls (`get_general_response`, `generate_descriptive_text`, `estimate_custom_service_cost`) are parameters or unmodelled text. They are network calls whose content cannot be stated.
- `email_validator` and `phonenumbers` are parameters. Their rules live in libraries outside this repository.
- The `/upload-resume` endpoint, `BackgroundTasks` scheduling, FastAPI, CORS and Pydantic are left out. They are I/O and concurrency.
- Going back to `get_phone` in the first version needs a country list for the form. The model uses the first version's table names, which is the `countries` that main.py imports.
- Sending mail is recorded as an effect with its recipient, subject and attachment. Transport is left out.
  - The deployed mail helper without credentials is a silent no-op, and it swallows every transport error. Its effect is still recorded, because the task cannot tell.
  - The first version's helper raises on missing credentials. That is `mailConfigured`.
  - The first version's SendGrid network errors are swallowed, so they are not modelled.
- The sales summary of the first version is written by `create_lead_summary_pdf`. pdf_writer.py does not define it, so the import fails as written. The model keeps the call as an effect whose content is unknown (`SalesContents` gives `None`).
- The MongoDB connection is a flag, and database exceptions are left out.
- The PDF layout, colours, page breaks, the date lines and the footer are left out. Only the labelled content lines are modelled. Of the fonts and the file output, only whether they fail is modelled (`PdfEnv`). Both documents of a run share one `PdfEnv`, since they use the same fonts and the same directory.
- `os.makedirs` for the proposals directory is assumed to succeed. The first version's undefined sales-summary writer is assumed not to raise once the client document was saved.
- The file-name timestamp and date are parameters, because the clock is outside the model.
- Reading the spreadsheet files with pandas is left out: which files exist, read errors, and column dtypes (a numeric column holding NaN turning into float text). Rows arrive as cleaned cells.
- Binary floating point is left out; amounts are exact reals. The Python formatter's rounding is modelled on the exact value, so results can differ from the float result at exact .5 boundaries.
- `str.lower`, `str.isalnum` and `str.isdigit` are modelled on ASCII only. Python's Unicode rules are wider.
- `float()` on text is modelled as plain decimals with an optional sign and point. Exponents, `inf`, `nan` and underscores read as not-a-number.
- The frontend widget is left out. It builds the "country:number" token and sends the back sentinel.
- Stages.NameOfParse, Stages.ParseOfName: the model does not know the client's free-text stage names beyond the named ones, so `Unknown` names round-trip as text only.
- BackendTask.ProposalTask, LegacyTask.ProposalTask: these state the order of effects, when the run completes and when the trace is empty, not the contents of every effect. Contents are stated for a completed run by BackendTask.CompletedRunContents.
