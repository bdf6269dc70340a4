# A Dafny model of the Electricity Regulator's reporting platform

The platform is a Flask and SQLAlchemy web application. Electricity operators in the
Democratic Republic of the Congo use it to report their production, transport and
distribution data to the regulator (ARE). The regulator uses it to validate those reports,
grade regulatory KPIs, raise alerts and publish national statistics. Beneath the HTTP
plumbing there is a layer of small, stateful logic, and that layer is what this project
models and proves things about:

- **Browser scripts.**
  - The repeated "transformateur" sections of the transport and distribution forms
    (`transformateurs.dfy`).
  - The ARE dashboard object, with its auto-refresh timer, energy-mix doughnut and KPI cards
    (`are_dashboard_script.dfy`).
  - The chart helpers: the chart registry, gauge colour, palettes, hex colour parser,
    gradient and CSV export (`graphiques.dfy`).
  - JavaScript numbers are modelled in `js_numbers.dfy`.
- **State machines.**
  - The report-validation workflow, its history and the workflow service (`workflow_model.dfy`,
    `workflow_services.dfy`).
  - The operators' monthly data collections, with their form and routes (`collecte_model.dfy`,
    `collecte_forms.dfy`, `collecte_routes.dfy`).
- **Accounts and access.**
  - Users, roles and the contact login ids (`users.dfy`).
  - The permission helpers and decorators (`access.dfy`).
  - The account forms (`auth_forms.dfy`).
  - The coercers and month choices (`coercion.dfy`).
  - The template filters (`app_filters.dfy`) and month names (`calendar.dfy`).
  - The shared base model (`base_model.dfy`).
- **Notifications and messaging.** The records and their flags, the services, the message
  routes and the default templates (`notifications_*.dfy`).
- **Regulatory arithmetic and aggregation.**
  - KPI grading and sanctions (`kpis.dfy`).
  - Alerts (`dashboard_are_model.dfy`).
  - Distribution records and the distribution dashboard (`distribution_*.dfy`).
  - Hydro reports and their calculators and forms (`production_hydro_*.dfy`).
  - The thermal report routes and filter API (`production_thermique_*.dfy`).
  - The transport dashboard (`transport_routes.dfy`).
  - The ARE indicator services, statistics pipelines and dashboard pages (`are_*.dfy`).
  - The administration analytics (`admin_utils.dfy`).

`collections.dfy`, `text.dfy`, `python.dfy`, `ratios.dfy` and `wrappers.dfy` hold the folds,
string functions, Python built-ins and percent arithmetic the modules share.

**How the program is represented**
- Database tables become sequences of rows in table order. A nullable column is an `Option`.
- `current_user` is a parameter.
- `datetime.now()` becomes a parameter: integer seconds, or integer days where only dates
  matter.
- Floats become `real`.
- Code that updates records step by step becomes classes and methods with `modifies` clauses
  and loop invariants.
- Decisions and derived quantities become functions. Lemmas relate them to one another.

## Model

| member | source | states |
|---|---|---|
| Transformateurs.FragmentIdInjective | app/static/js/transformateurs.js:25 | two sections named from different counter values never share an id `transformateur-<n>` |
| Transformateurs.FirstField | app/static/js/transformateurs.js:152 | `querySelector('[name*=…]')` picks the first control in DOM order whose name contains the text; none when no control matches |
| Transformateurs.ReplaceTokenIdempotent | app/static/js/transformateurs.js:167-168 | rewriting the first `[digits]` / `_digits_` token to the same index a second time changes nothing |
| Transformateurs.RenumberedTokenValue | app/static/js/transformateurs.js:167-168 | after the first token of a name or id is rewritten to `i`, the first token of the result reads `i` |
| Transformateurs.RenumberedToken | app/static/js/transformateurs.js:167-168 | the rewritten token stays the first token of the string, at the same position |
| Transformateurs.RenumberedAll | app/static/js/transformateurs.js:143-145 | renumbering keeps the number of sections |
| Transformateurs.RenumberedCarriesIndex | app/static/js/transformateurs.js:147-180 | the section at position k gets id `transformateur-k`, title number k+1, delete control k; the token of the chosen control's name and id, and the token of every label `for`, reads k |
| Transformateurs.RenumberedAllStable | app/static/js/transformateurs.js:139-182 | renumbering an already renumbered list changes no section id, no control (name, id, value) and no label `for` |
| Transformateurs.RenumberedIds | app/static/js/transformateurs.js:145-147 | after renumbering the ids are exactly transformateur-0 … transformateur-(n-1), pairwise distinct |
| Transformateurs.Rule | app/static/js/transformateurs.js:248-276 | one check of the list contributes its message exactly when its condition holds |
| Transformateurs.NotPositive | app/static/js/transformateurs.js:253 | the guard on a missing or non-positive value rejects exactly the numbers not above 0 (NaN, 0 and negatives) |
| Transformateurs.TensionsOrdered | app/static/js/transformateurs.js:269 | for two positive voltages the ordering check fails exactly when the primary is not above the secondary |
| Transformateurs.ImpedanceAdmise | app/static/js/transformateurs.js:274 | the impedance check accepts 0, NaN and every value in [0, 100], and nothing else |
| Transformateurs.ErreursVides | app/static/js/transformateurs.js:244-276 | no error iff the name is non-blank, the power positive, both voltages positive with primary > secondary, and the impedance is 0, NaN or in [0, 100] |
| Transformateurs.NomLuDansPuissance | app/static/js/transformateurs.js:247 | with `puissance_nominale` before the name field the selector `[name*="nom"]` reads the power value as the name, so a missing name goes unreported |
| Transformateurs.PowerNameContainsNom | app/static/js/transformateurs.js:247 | "puissance_nominale" contains "nom" |
| Transformateurs.RendementFini | app/static/js/transformateurs.js:206-219 | for a positive power P, efficiency = 100 − (pv+pc)/(10·P) and relative losses = (pv+pc)/(10·P); positive losses give an efficiency below 100 |
| Transformateurs.RendementEval | app/static/js/transformateurs.js:208-219 | for finite inputs the efficiency and relative losses evaluate to the written formulas on reals |
| Transformateurs.SetValue | app/static/js/transformateurs.js:213-216 | only the first control matched by `[name*="rendement"]` receives the value; every other control is unchanged |
| Transformateurs.ClonedFresh | app/static/js/transformateurs.js:13-25 | appending the clone named from the incremented counter keeps every id distinct and below the counter |
| Transformateurs.RenumberedFresh | app/static/js/transformateurs.js:145-147 | a renumbered list no longer than the counter plus one has fresh, distinct ids |
| Transformateurs.RemovedFresh | app/static/js/transformateurs.js:105 | removing a section keeps the ids fresh |
| Transformateurs.TransformateurPage.constructor | app/static/js/transformateurs.js:7 | the counter starts at 0; the display elements follow the initial number of sections |
| Transformateurs.TransformateurPage.NombreSections | app/static/js/transformateurs.js:116 | the count of non-template sections is the length of the entry list |
| Transformateurs.TransformateurPage.MettreAJourCompteur | app/static/js/transformateurs.js:114-134 | the count shows n, the empty message is shown iff n = 0, delete buttons are disabled iff n ≤ 1; absent elements stay absent |
| Transformateurs.TransformateurPage.Ajouter | app/static/js/transformateurs.js:12-81 | the counter grows by exactly one; without container or template nothing else changes; otherwise the clone with id, names, labels, title and delete control for the new counter is appended and the display updated; ids stay fresh |
| Transformateurs.TransformateurPage.RenameFields | app/static/js/transformateurs.js:29-36 | each control is renamed in DOM order, only its first `[0]` / `_0_` replaced |
| Transformateurs.TransformateurPage.RenameLabels | app/static/js/transformateurs.js:39-46 | each label's `for` has its first `_0_` replaced |
| Transformateurs.TransformateurPage.Renumeroter | app/static/js/transformateurs.js:139-182 | the entries become the renumbered list of the old entries; ids stay fresh |
| Transformateurs.TransformateurPage.RenumberOne | app/static/js/transformateurs.js:145-180 | one section renumbered: id, title, delete control, controls and labels |
| Transformateurs.TransformateurPage.Find | app/static/js/transformateurs.js:87 | `getElementById` finds the first section with the id, or none |
| Transformateurs.TransformateurPage.Supprimer | app/static/js/transformateurs.js:86-109 | an unknown index or a declined confirmation changes nothing; otherwise the section is removed, the display updated and the rest renumbered |
| Transformateurs.TransformateurPage.Valider | app/static/js/transformateurs.js:240-306 | false for an unknown section; otherwise true iff the rule list finds no error; errors fill the alert container, a success empties an existing one |
| Transformateurs.TransformateurPage.AfficherErreurs | app/static/js/transformateurs.js:279-305 | the result is true iff there is no error; the alert container holds the errors or is emptied |
| Transformateurs.TransformateurPage.CalculerPerformances | app/static/js/transformateurs.js:198-235 | nothing changes for an unknown section or a power ≤ 0; otherwise the `rendement` control and the title badge show the efficiency (2 decimals) and relative losses (3 decimals) |
| Transformateurs.TransformateurPage.AfficherPerformances | app/static/js/transformateurs.js:212-233 | the `rendement` control gets the value and the title badge the two texts; nothing else changes |
| AreDashboardScript.ShareOrZero | app/static/js/are/dashboard.js:49-51 | defaulting a falsy value to 0 is never NaN and keeps a truthy number |
| AreDashboardScript.ResidualNonNegative | app/static/js/are/dashboard.js:52 | the "Autres" value is never negative, and is NaN exactly when the raw sum of the three shares is |
| AreDashboardScript.MixSeries | app/static/js/are/dashboard.js:48-53 | the doughnut has four values, in the order of its labels |
| AreDashboardScript.MixSeriesValues | app/static/js/are/dashboard.js:48-53 | with numeric finite shares the four values are hydro, thermal, solar and max(0, 100 − their sum) |
| AreDashboardScript.ResidualOfSum | app/static/js/are/dashboard.js:52 | a finite total x leaves max(0, 100 − x) |
| AreDashboardScript.ResidualFinite | app/static/js/are/dashboard.js:317 | shares that convert to finite numbers (numbers or null) leave max(0, 100 − (h+t+s)) |
| AreDashboardScript.ResidualUndefined | app/static/js/are/dashboard.js:317 | a missing share makes the residual NaN |
| AreDashboardScript.MixSeriesTotal | app/static/js/are/dashboard.js:313-318 | non-negative finite shares totalling at most 100 make the four values sum to exactly 100 |
| AreDashboardScript.ResidualSaturates | app/static/js/are/dashboard.js:317 | shares reaching 100 leave 0 for "Autres" |
| AreDashboardScript.Magnitude | app/static/js/are/dashboard.js:472-479 | the divisor formatNumber uses is positive |
| AreDashboardScript.FormatNumberSuffix | app/static/js/are/dashboard.js:472-479 | values ≥ 1e6 end in 'M', values in [1e3, 1e6) end in 'K' |
| AreDashboardScript.FormatNumberText | app/static/js/are/dashboard.js:472-479 | a finite value is shown as its quotient by 1e6, 1e3 or 1 to one decimal, then the suffix |
| AreDashboardScript.FormatNumberParses | app/static/js/are/dashboard.js:472-479 | parsing a formatted number gives back the quotient rounded to one decimal |
| AreDashboardScript.ReadBackClose | app/static/js/are/dashboard.js:472-479 | the number read back, times its unit, is within 0.05 units of the original value |
| AreDashboardScript.TendanceIconCases | app/static/js/are/dashboard.js:396-407 | '' exactly for a falsy trend; up arrow for 'hausse', down arrow for 'baisse', dash for anything else |
| AreDashboardScript.Cards | app/static/js/are/dashboard.js:366 | at most six cards, the first six KPIs in order |
| AreDashboardScript.CardAlerte | app/static/js/are/dashboard.js:371 | a card is styled as an alert iff its threshold is truthy and the value is below it |
| AreDashboardScript.TopPerformance | app/static/js/are/dashboard.js:418-422 | the chart gets the first ten operators' names, productions and load factors, aligned |
| AreDashboardScript.DashboardAre.constructor | app/static/js/are/dashboard.js:7-18 | no data or charts, refreshing disabled and exactly one interval started |
| AreDashboardScript.DashboardAre.InitWithData | app/static/js/are/dashboard.js:20-34 | keeps the operator and creates the charts whose canvas exists; timers unchanged |
| AreDashboardScript.DashboardAre.StartAutoRefresh | app/static/js/are/dashboard.js:259-270 | any running interval is cleared first; exactly one live handle, the new one |
| AreDashboardScript.DashboardAre.StopAutoRefresh | app/static/js/are/dashboard.js:272-277 | no interval remains and the handle is null; nothing else changes |
| AreDashboardScript.DashboardAre.ToggleAutoRefresh | app/static/js/are/dashboard.js:247-257 | the flag becomes the argument, the timer is started or stopped accordingly, and the matching notification is shown |
| AreDashboardScript.DashboardAre.RefreshAllData | app/static/js/are/dashboard.js:279-303 | mix, then KPIs, then operators' chart; the first failure skips the rest and shows the error notification; loading is off at the end either way |
| AreDashboardScript.DashboardAre.UpdateMixEnergetique | app/static/js/are/dashboard.js:305-348 | redraws the doughnut when it exists, then the shares text; fails when the fetch throws or a share cannot be formatted |
| AreDashboardScript.DashboardAre.UpdateKpis | app/static/js/are/dashboard.js:350-361 | redraws the cards only when the container exists and the response has a list |
| AreDashboardScript.DashboardAre.RenderKpiCards | app/static/js/are/dashboard.js:363-394 | the container is emptied and then holds exactly the cards of the first six KPIs |
| AreDashboardScript.DashboardAre.UpdatePerformanceOperateurs | app/static/js/are/dashboard.js:409-429 | skipped when an operator is selected; otherwise the chart shows the top ten; its own errors are swallowed |
| AreDashboardScript.DashboardAre.Tick | app/static/js/are/dashboard.js:265-268 | a tick of a live interval while refreshing is enabled leaves the state `refreshAllData` produces from the responses; otherwise nothing changes |
| Graphiques.OrText | app/static/js/graphiques.js:425 | a falsy value falling back in the template: the fallback for a falsy value, the value's text otherwise |
| Graphiques.HeaderCells | app/static/js/graphiques.js:424-426 | one header cell per dataset: its label, or 'Dataset' when the label is falsy |
| Graphiques.RowCells | app/static/js/graphiques.js:432-434 | one cell per dataset: its value at the index, or '' when falsy |
| Graphiques.CsvLinesAt | app/static/js/graphiques.js:421-436 | the CSV has the header line first, then exactly one line per label, in order |
| Graphiques.LinesUpToSnoc | app/static/js/graphiques.js:430-436 | each label appends its own line at the end |
| Graphiques.CsvUpToLines | app/static/js/graphiques.js:421-436 | the CSV text is its lines, each followed by a newline |
| Graphiques.LinesFree | app/static/js/graphiques.js:421-436 | with no newline in any cell, no CSV line holds one |
| Graphiques.RowReadBack | app/static/js/graphiques.js:430-435 | with no comma in any cell, a data line splits back into the label and one cell per dataset |
| Graphiques.CsvReadBack | app/static/js/graphiques.js:421-436 | splitting the text on newlines gives the lines back, and splitting the header and each line on commas gives back their cells |
| Graphiques.FalsyCellEmpty | app/static/js/graphiques.js:433 | a falsy data value, 0 included, leaves its cell empty |
| Graphiques.ChartIdOfConfig | app/static/js/graphiques.js:31 | the chart id of `p-config` is `p` when `p` holds no `-config` of its own |
| Graphiques.RegisteredAppend | app/static/js/graphiques.js:30-55 | registering two lists of elements one after the other is registering their concatenation |
| Graphiques.ParseFailureSkipsOnlyIt | app/static/js/graphiques.js:35-53 | an element whose JSON fails to parse is skipped; the other charts are created as without it |
| Graphiques.RegisteredKeys | app/static/js/graphiques.js:26-56 | afterwards the registry holds exactly its old ids plus those of the elements that register |
| Graphiques.RegisteredIdsComplete | app/static/js/graphiques.js:32-49 | every element with a canvas, text and parsable config registers its chart id |
| Graphiques.RegisteredIdsSound | app/static/js/graphiques.js:32-49 | every registered id comes from such an element |
| Graphiques.RegisteredLastWins | app/static/js/graphiques.js:49 | the last element registering an id decides its chart |
| Graphiques.Updated | app/static/js/graphiques.js:252-263 | labels and datasets are replaced only when given; given options are merged over the old ones key by key |
| Graphiques.UpdatedNothing | app/static/js/graphiques.js:248-267 | updating with nothing new leaves the chart as it is |
| Graphiques.ChartRegistry.constructor | app/static/js/graphiques.js:7 | the registry starts empty |
| Graphiques.ChartRegistry.InitCharts | app/static/js/graphiques.js:26-99 | the registry becomes the old one with the elements' charts registered in order |
| Graphiques.ChartRegistry.MettreAJour | app/static/js/graphiques.js:248-268 | an unknown id changes nothing; an id inherited from `Object.prototype` throws `TypeError` exactly when the registry does not hold it, changing nothing; otherwise only that chart is replaced by its update |
| Graphiques.ChartRegistry.Detruire | app/static/js/graphiques.js:273-279 | the id leaves the registry, every other chart stays; an unknown id changes nothing; an id inherited from `Object.prototype` and not registered throws at `destroy`, and nothing else does |
| Graphiques.ChartRegistry.CreerDynamique | app/static/js/graphiques.js:373-394 | an unknown container gives null and changes nothing; otherwise the chart is registered under `<container>-chart` |
| Graphiques.ChartRegistry.ExporterCsv | app/static/js/graphiques.js:416-436 | nothing for an unknown id, and a `TypeError` exactly when that id is inherited from `Object.prototype`; otherwise the CSV text of that chart |
| Graphiques.InheritedOnlyCases | app/static/js/graphiques.js:7 | on a fresh registry 'constructor' finds an inherited member; a registered id, or one `Object.prototype` does not hold, never does |
| Graphiques.BuildHeader | app/static/js/graphiques.js:421-427 | the loop builds the header line |
| Graphiques.BuildRow | app/static/js/graphiques.js:431-435 | the loop builds the line of label i |
| Graphiques.GaugeColour | app/static/js/graphiques.js:130-146 | the stroke colour is the colour chosen for valeur / max_value |
| Graphiques.LastMatchIsLast | app/static/js/graphiques.js:132-137 | a colour is found iff some range contains the percentage, and it is the colour of the last such range |
| Graphiques.ThresholdMonotone | app/static/js/graphiques.js:139-145 | without ranges a larger percentage never gets a worse colour (red < 0.5, yellow < 0.8, green); NaN shows green |
| Graphiques.JsRemainder | app/static/js/graphiques.js:337 | JavaScript `%`: the remainder has the sign of the dividend and lies strictly between −n and n |
| Graphiques.PaletteOf | app/static/js/graphiques.js:325-336 | a listed name gives its palette, a name inherited from `Object.prototype` gives that member, any other name the default palette; every palette has six colours |
| Graphiques.ObtenirCouleur | app/static/js/graphiques.js:335-338 | a non-negative index gives palette[index mod 6]; undefined exactly when the name is inherited from `Object.prototype` or the JavaScript remainder is negative |
| Graphiques.ObtenirCouleurCycles | app/static/js/graphiques.js:335-338 | colours repeat every six indices; an unknown palette name means 'defaut'; an inherited name gives no colour |
| Graphiques.HexBody | app/static/js/graphiques.js:362 | a hex colour has exactly six hex digits after the optional '#' |
| Graphiques.HexVersRgb | app/static/js/graphiques.js:361-368 | every channel is below 256; anything other than an optional '#' and six hex digits gives black |
| Graphiques.HexRoundTrip | app/static/js/graphiques.js:361-368 | parsing a rendered colour, with or without '#', gives the colour back |
| Graphiques.HexCanonical | app/static/js/graphiques.js:362-367 | rendering a parsed colour gives the input's digits in lower case: upper and lower case digits parse alike |
| Graphiques.HexDigitLower | app/static/js/graphiques.js:364-366 | a digit's value renders as that digit in lower case |
| Graphiques.PairDigits | app/static/js/graphiques.js:364-366 | a pair of digits parsed then rendered gives the pair in lower case |
| Graphiques.GenererDegrade | app/static/js/graphiques.js:343-356 | exactly `nombre` colours (none when it is not positive), the i-th being the base scaled by 0.8 + 0.4·i/nombre |
| Graphiques.Degrade | app/static/js/graphiques.js:347-353 | the loop over the parsed base colour builds exactly those colours |
| Graphiques.TintStep | app/static/js/graphiques.js:348-351 | one step: the factor, then the three rounded channels |
| Graphiques.TintListAt | app/static/js/graphiques.js:347-353 | the k-th colour is the k-th tint |
| Graphiques.RoundMonotone | app/static/js/graphiques.js:349-351 | rounding a scaled channel is monotone in the factor |
| Graphiques.DegradeFirst | app/static/js/graphiques.js:348 | the first factor is 0.8 |
| Graphiques.DegradeMonotone | app/static/js/graphiques.js:348-351 | a channel never decreases along the gradient |
| Graphiques.DegradeBelow | app/static/js/graphiques.js:348-351 | every channel stays at most the base channel scaled by 1.2 |
| WorkflowModel.WorkflowFor | app/models/workflow.py:77-80 | the workflow found has the requested report type and comes from the table; none is found exactly when no row has that type |
| WorkflowModel.Tables.AjouterAction | app/models/workflow.py:305-319 | the history table gains exactly the new entry, at its end |
| WorkflowModel.ValidationRapport.constructor | app/models/workflow.py:124-129 | the record holds the given columns; when a submission date is given without an expiration and the type has a workflow, the expiration is the submission date plus the workflow's delay in hours |
| WorkflowModel.ValidationRapport.Save | app/models/base.py:17-21 | an unsaved record is appended to the table with the next id and the column defaults (BROUILLON, priority 1, no reminders); a saved one leaves the table as it is |
| WorkflowModel.ValidationRapport.Soumettre | app/models/workflow.py:152-174 | succeeds exactly from BROUILLON; then the record is SOUMIS at `now`, expires after the workflow's delay, one SOUMISSION entry is logged and the record is saved; on refusal nothing changes |
| WorkflowModel.ValidationRapport.Valider | app/models/workflow.py:176-196 | succeeds exactly from SOUMIS or EN_VALIDATION; then the record is VALIDE with validator, date, comment and signature, and one VALIDATION entry is logged; on refusal nothing changes |
| WorkflowModel.ValidationRapport.Rejeter | app/models/workflow.py:198-217 | succeeds exactly from SOUMIS or EN_VALIDATION; then the record is REJETE with the reason as its comment, and one REJET entry is logged; on refusal nothing changes |
| WorkflowModel.ValidationRapport.EstExpire | app/models/workflow.py:219-223 | true exactly when an expiration date is set and `now` is past it |
| WorkflowModel.Guards | app/models/workflow.py:154-200 | submission is possible exactly from BROUILLON; validation and rejection exactly from SOUMIS or EN_VALIDATION |
| WorkflowModel.TransitionTargets | app/models/workflow.py:155-201 | a successful submission, validation or rejection ends in SOUMIS, VALIDE or REJETE respectively |
| WorkflowModel.SubmissionDeadline | app/models/workflow.py:82-87 | after a submission, `est_expire` and the workflow's `is_delai_expire` on the submission date agree at every instant |
| WorkflowModel.FinalIsAbsorbing | app/models/workflow.py:152-217 | from VALIDE, REJETE or EXPIRE no sequence of submit, validate and reject calls changes the record or logs anything |
| WorkflowModel.RunLogsAtMostOnePerAction | app/models/workflow.py:164-171 | a sequence of calls logs at most one history entry per call |
| WorkflowModel.ValidatedRunLoggedValidation | app/models/workflow.py:186-193 | a record that reaches VALIDE by a sequence of calls has a VALIDATION entry in the log of that sequence |
| WorkflowModel.RemainingTextParts | app/models/workflow.py:225-239 | before the deadline the text names the whole days and the remaining whole hours (below 24), with the day part only when at least one day remains |
| WorkflowModel.RemainingTextAt | app/models/workflow.py:229-239 | the days and hours shown are `delta.days` and `delta.seconds // 3600` of the time left |
| WorkflowModel.RemainingTextExpired | app/models/workflow.py:225-231 | no text without an expiration; "Expiré" exactly when the deadline is reached, so in particular for every expired record |
| WorkflowServices.FindIdFrom | app/workflow/services.py:230 | the row found has the primary key; none is found only when no row has it |
| WorkflowServices.ForRapportFrom | app/workflow/services.py:143 | the row found is a validation of the report; none is found only when the report has none |
| WorkflowServices.Pending | app/workflow/services.py:269-274 | keeps exactly the SOUMIS and EN_VALIDATION rows (of the validator, when one is given) |
| WorkflowServices.Expirees | app/workflow/services.py:282-287 | keeps exactly the pending rows whose expiration is before `now` |
| WorkflowServices.ExpireesMembership | app/models/workflow.py:251-257 | a row is listed as expired exactly when it is pending and its expiration is before `now` |
| WorkflowServices.ExpireeIsEstExpire | app/models/workflow.py:219-223 | the cleanup's filter is the same as a pending status plus `est_expire` |
| WorkflowServices.SortByCorrect | app/workflow/services.py:276-279 | the ordering used by the queries returns a sorted permutation of its input |
| WorkflowServices.EnAttenteQueues | app/workflow/services.py:259-279 | both pending queues (by priority then date, and the model's by date) are sorted and hold exactly the pending rows, each as often as the table |
| WorkflowServices.Submit | app/workflow/services.py:119-184 | succeeds exactly when the type has a workflow and the report has no validation or only a BROUILLON one; the new state of the tables and the history entries are stated for both the existing and the new validation; a refusal changes nothing |
| WorkflowServices.SubmitNew | app/workflow/services.py:151-178 | a new validation is submitted exactly when its initial status is BROUILLON; it is then appended to the table with the submission entries |
| WorkflowServices.SubmittedRow | app/workflow/services.py:159-167 | a submitted row has an id, the report, SOUMIS, the priority, `now`, the workflow's deadline and the assigned validator when there is one |
| WorkflowServices.SoumettreAvecCommentaire | app/workflow/services.py:159-178 | `soumettre` succeeds exactly from BROUILLON; the log then holds the SOUMISSION entry and, with a comment, a MODIFICATION entry after it |
| WorkflowServices.SoumettreRapportAsWritten | app/workflow/services.py:148-167 | for a report without validation the call always returns None and changes no table |
| WorkflowServices.SoumettreRapport | app/workflow/services.py:119-184 | with the BROUILLON start, a report with a workflow and no validation or a BROUILLON one is submitted, and the row returned is in the table, SOUMIS, with the priority, date, deadline and validator |
| WorkflowServices.ValiderRapport | app/workflow/services.py:213-256 | an unknown id gives False and no change; otherwise 'valider' and 'rejeter' succeed exactly from a pending status, 'demander_modification' always sets BROUILLON and logs a MODIFICATION entry, and any other action changes nothing |
| WorkflowServices.EnvoyerRelance | app/workflow/services.py:290-324 | succeeds exactly when the validation exists and its counter is set; the counter then grows by one and one RELANCE entry is logged; otherwise nothing changes |
| WorkflowServices.NettoyerValidationsExpirees | app/workflow/services.py:379-400 | returns how many validations were expired; exactly those become EXPIRE, the others are unchanged, and one EXPIRATION entry per validation is appended in order |
| WorkflowServices.MarquerExpirees | app/workflow/services.py:387-397 | every listed validation becomes EXPIRE and the log grows by one EXPIRATION entry per validation, in list order |
| WorkflowServices.MarquerExpiree | app/workflow/services.py:388-397 | the validation becomes EXPIRE and one EXPIRATION entry by the system user is logged |
| WorkflowServices.ExpirationEntriesAre | app/workflow/services.py:391-397 | the entries logged by the loop are the EXPIRATION entries of the expired rows, in order |
| WorkflowServices.TermineesKeepDelais | app/workflow/services.py:349-362 | restricting first to the rows with a validation date loses no delay from the sum or the count |
| WorkflowServices.StatistiquesWorkflow | app/workflow/services.py:327-376 | the statistics are those of the rows of the given workflow (all rows when none is given) |
| WorkflowServices.StatsBounds | app/workflow/services.py:341-367 | the validated, rejected and pending counts add up to at most the total; the rate lies between 0 and 100 and is 0, with no mean delay, for an empty table |
| WorkflowServices.StatsIgnoreIncomplete | app/workflow/services.py:357 | a row without both dates does not change the mean delay |
| WorkflowServices.NoDelaiWithoutDates | app/workflow/services.py:353-374 | when no row has both dates the mean delay is absent ("N/A") |
| WorkflowServices.CreerWorkflowDefaut | app/workflow/services.py:21-108 | the workflow table and the count are those of inserting the eight defaults where missing, and the message names the count |
| WorkflowServices.InsererManquants | app/workflow/services.py:92-101 | the loop inserts each configuration whose type has no workflow yet and counts the insertions |
| WorkflowServices.DefaultsKeepExisting | app/workflow/services.py:94-101 | existing workflows stay first and unchanged, each type keeps the workflow it had, and the table grows by exactly the count |
| WorkflowServices.DefaultsCover | app/workflow/services.py:92-101 | afterwards every type listed in the configurations has a workflow |
| WorkflowServices.DefaultsCoverEveryType | app/workflow/services.py:23-101 | after the defaults, every report type has a workflow |
| WorkflowServices.DefaultsIdempotent | app/workflow/services.py:92-101 | a second run creates nothing and leaves the table as it is |
| WorkflowServices.CreatedAreMissing | app/workflow/services.py:98-101 | with one configuration per type, the count is the number of configured types that had no workflow |
| WorkflowServices.DefaultsDistinct | app/workflow/services.py:23-88 | the default list has one configuration per report type |
| WorkflowServices.EmptyTableGetsEight | app/workflow/services.py:23-108 | on an empty table all eight defaults are created |
| CollecteModel.StatutOfValue | app/models/collecte_donnees.py:25-30 | a status found for a text has that text as its value |
| CollecteModel.StatutValueRoundTrip | app/models/collecte_donnees.py:25-30 | every status is found again from its value |
| CollecteModel.StatutNameNotValue | app/models/collecte_donnees.py:44 | the member name the Enum column stores is never the value text of any member |
| CollecteModel.PeutEtreModifieCases | app/models/collecte_donnees.py:106-109 | BROUILLON and REJETE collections may be edited; SOUMIS, VALIDE and a missing status may not |
| CollecteModel.TotalsCountEachLevel | app/models/collecte_donnees.py:111-123 | with nothing entered a total is 0; filling one HT/MT/BT level adds exactly its count; the new-client total ignores the disconnection fields |
| CollecteModel.TotalsBoundParts | app/models/collecte_donnees.py:111-116 | with non-negative counts the total is non-negative and at least each of its levels |
| CollecteModel.StatutDisplay | app/models/collecte_donnees.py:214-222 | a label exists exactly when an ARE status is set |
| CollecteModel.StatutDisplayCases | app/models/collecte_donnees.py:214-222 | the three known statuses get three distinct labels; any other status shows as it is |
| CollecteForms.YearChoicesRange | app/collecte/forms.py:250-253 | eight choices, each shown as its own value, from five years before the current year to two after it, in order |
| CollecteForms.YearChoicesOnly | app/collecte/forms.py:252 | any year offered lies between five years back and two years ahead |
| CollecteForms.BlocksAsWrittenRefusesDrafts | app/collecte/forms.py:273 | as written every existing collection blocks, a draft included; as intended only a non-draft does |
| CollecteForms.ExistingIndex | app/collecte/forms.py:265-271 | the position found is the first row of the operator for that year and month; none exactly when there is no such row |
| CollecteForms.ExistingFor | app/collecte/forms.py:265-271 | the row found is of the operator and period; none exactly when there is no such row |
| CollecteForms.ValidateAccepts | app/collecte/forms.py:259-292 | for either status test (`BlocksAsWritten` as written, `Blocks` as intended) the form is accepted exactly when the base checks pass, the year and month parse to an existing month not after the current one, and no collection of the user's operator for that month fails the test; a refusal carries exactly one message |
| CollecteForms.ValidateAsWrittenRefusesDraft | app/collecte/forms.py:264-278 | as written any existing collection of the operator for the month, a draft included, refuses the form with the month error naming its status; with the intended test an existing draft of a valid, non-future month is accepted |
| CollecteForms.ExistingStepMeaning | app/collecte/forms.py:264-278 | the duplicate check lets validation go on exactly when both numbers parse and no collection of the month fails the status test; it never accepts, and a refusal carries exactly one month error |
| CollecteForms.PeriodStepMeaning | app/collecte/forms.py:280-290 | the period check accepts exactly an existing month not after the current one, and a refusal carries exactly one message |
| CollecteForms.CurrentMonthAccepted | app/collecte/forms.py:281-282 | the current month passes the future-period check; the next month and next January do not |
| CollecteForms.CollecteForm.constructor | app/collecte/forms.py:247-257 | the choices are the eight years, and the year defaults to the current one when none was submitted |
| CollecteForms.CollecteForm.Validate | app/collecte/forms.py:259-292 | the result and the error lists are those of the checks run in order, stopping at the first failure, for the status test given (as written or corrected) |
| CollecteForms.CollecteForm.CheckExisting | app/collecte/forms.py:264-278 | the duplicate check of a user with an operator refuses with one month error exactly when a collection of the month exists and fails the status test given (as written or corrected), or lets validation go on |
| CollecteForms.CollecteForm.CheckPeriod | app/collecte/forms.py:280-290 | an impossible date gives the year error, a future month the month error, otherwise acceptance |
| CollecteForms.MiseEnServiceError | app/collecte/forms.py:478-484 | an error exactly when both dates are set and the commissioning is not after the start of works |
| CollecteRoutes.CollecteRolesAsWrittenRefuseUsers | app/collecte/routes.py:86 | as written an active `utilisateur_operateur` is refused by the collection routes and with the intended list admitted; admins are admitted by both; the role 'operateur' does not exist |
| CollecteRoutes.FilledKeepsKey | app/collecte/routes.py:139-175 | the filled record keeps its id and operator period; it stays editable exactly for a draft; a submission stamps `now`, a draft keeps its date; the form's data is stored |
| CollecteRoutes.SubmitKeepsTable | app/collecte/routes.py:104-185 | every outcome keeps one collection per operator and period and every id below the next one |
| CollecteRoutes.SubmitAsWrittenNeverUpdates | app/collecte/routes.py:122-130 | as written an existing collection, draft or not, is never updated; with the intended test an existing draft is updated in place |
| CollecteRoutes.SubmitAsWrittenNeverStores | app/collecte/routes.py:113-137 | as written a valid submission never creates or updates a collection; it raises `AttributeError` exactly when no active collection holds the period, which is where the corrected route inserts the new row |
| CollecteRoutes.SubmitStores | app/collecte/routes.py:131-175 | corrected route: a new collection is appended with the user, period and form data, editable exactly for a draft and dated exactly for a submission |
| CollecteRoutes.CollecteTable.Soumettre | app/collecte/routes.py:104-185 | the table after the corrected route (submitter id column, status members), with the existing-collection test as a parameter, is the one of the submission function, and the table stays valid |
| CollecteRoutes.CollecteTable.SoumettreAsWritten | app/collecte/routes.py:103-137 | the route as written: no operator, an invalid form, a refusal by any existing collection, or `AttributeError` from the constructor; the table is untouched |
| CollecteRoutes.CollecteTable.SoumettreCollecte | app/collecte/routes.py:104-185 | the corrected route: an existing draft is filled in again, a new row records its submitter's id, statuses are members |
| CollecteRoutes.CollecteTable.ApiValider | app/collecte/routes.py:374-399 | the corrected route (validator id column, status members): the outcome and the new table are those of the decision function |
| CollecteRoutes.CollecteTable.ApiValiderAsWritten | app/collecte/routes.py:377-392 | the route as written: 404, 400, or `AttributeError` from the validator assignment; nothing is stored |
| CollecteRoutes.ValiderAsWrittenNeverDecides | app/collecte/routes.py:380-392 | as written no decision is recorded; the request fails exactly where the corrected route records one, and otherwise answers as it does |
| CollecteRoutes.VoirCollecteAccess | app/collecte/routes.py:190-200 | a collection is shown exactly to a super administrator or a member of its operator, which is `user_can_access_operateur`; anyone else is refused |
| CollecteRoutes.IndexOfId | app/collecte/routes.py:377 | the position found holds the id; none exactly when no row has it (404) |
| CollecteRoutes.ActionStatut | app/collecte/routes.py:380-391 | 'valider' gives VALIDE, 'rejeter' gives REJETE, any other action (or none) is refused |
| CollecteRoutes.ValiderEffect | app/collecte/routes.py:374-399 | corrected route: a decision changes only the status, date and validator of the one row; a validated collection is locked and a rejected one editable; an unknown id or action changes nothing |
| CollecteRoutes.ValiderKeepsTable | app/collecte/routes.py:374-399 | a decision keeps the table valid |
| Kpis.GradeLower | app/models/kpis_reglementaires.py:65-73 | with every threshold set the lower-is-better chain always gives a grade |
| Kpis.GradeHigher | app/models/kpis_reglementaires.py:74-84 | with every threshold set the higher-is-better chain always gives a grade |
| Kpis.PenaltyOfGrade | app/models/kpis_reglementaires.py:63-84 | no fine for 'excellent' and 'acceptable', the moderate fine for 'limite', the critical fine for 'critique'; the major fine is never applied |
| Kpis.GradeLowerCases | app/models/kpis_reglementaires.py:65-73 | for 'diminution' the grade is the first of the three upper bounds the value stays under, 'critique' above them all |
| Kpis.HigherIsMirroredLower | app/models/kpis_reglementaires.py:74-84 | grading where higher is better is grading the negated value against the negated thresholds where lower is better |
| Kpis.GradeLowerMonotone | app/models/kpis_reglementaires.py:65-73 | with ordered thresholds, a larger value never gets a better grade when lower is better |
| Kpis.GradeHigherMonotone | app/models/kpis_reglementaires.py:74-84 | with ordered thresholds, a larger value never gets a worse grade when higher is better |
| Kpis.PerformanceOperateurKpi.constructor | app/models/kpis_reglementaires.py:100-104 | a new row holds the KPI and the measured value, with no grade and no fine yet |
| Kpis.PerformanceOperateurKpi.CalculerEvaluation | app/models/kpis_reglementaires.py:116-123 | without a KPI it returns `(None, None)` and changes nothing; otherwise it stores the grade and the fine, or 0 when there is none, and returns them |
| Kpis.SanctionStates | app/models/kpis_reglementaires.py:158-166 | a paid sanction or one without a due date is never late; an unpaid one is late exactly after its due date, and stays late as time passes |
| Users.IsAdmin | app/models/utilisateurs.py:45-47 | an administrator is a super administrator or an operator administrator, never a plain operator user |
| Users.NomCompletParts | app/models/utilisateurs.py:53-63 | the full name starts with the first name and ends with the last name when they are set, and is the username when neither is |
| Users.HasPermissionTable | app/models/utilisateurs.py:65-74 | no permission without a known role; only the super administrator views all reports and creates users; operator roles create reports; only plain users edit their own |
| Users.FindOperateur | app/models/utilisateurs.py:86 | the operator found has the id; none only when no operator has it |
| Users.Actives | app/models/utilisateurs.py:84-85 | exactly the active operators |
| Users.AccessibleOperateursAreAccessible | app/models/utilisateurs.py:82-89 | every listed operator is one the user may access; a super administrator gets every active one; anyone else at most their own operator, and nothing without one |
| Users.ContactCheckPassword | app/models/operateurs.py:95-99 | a contact without a stored hash never matches; otherwise the hash verifier decides |
| Users.ContactAlwaysAuthenticated | app/models/operateurs.py:101-107 | a contact is always authenticated and never anonymous |
| Users.ContactNomCompletParts | app/models/operateurs.py:126 | a contact's full name is the first name, one space, and the last name |
| Users.FindUser | app/__init__.py:42 | the result is the first user with the id; none exactly when no user has it |
| Users.FindContact | app/__init__.py:40 | the result is the first contact with the id; none exactly when no contact has it |
| Users.LoadContactRoundTrip | app/__init__.py:35-42 | loading the session id of a contact (`contact_<id>`) gives back that contact |
| Users.LoadUserRoundTrip | app/__init__.py:35-42 | loading the session id of a user gives back that user, never a contact |
| Users.LoadContactRejects | app/__init__.py:38-40 | a `contact_` id whose remainder is not a number makes the loader raise |
| Users.LoadUserRejects | app/__init__.py:42 | any other id that is not a number makes the loader raise |
| Access.PermissionsBroaderThanUser | app/utils/permissions.py:8-24 | the permission helper grants whatever `User.can_access_operateur` grants and more: an operator administrator reaches every operator and lists every active one |
| Access.PermissionsDisagree | app/utils/permissions.py:20-24 | an operator administrator asking for another operator is admitted by the helper and refused by the model method |
| Access.AccessThroughReseau | app/utils/permissions.py:38-98 | a network is reached exactly when its operator is, and substations and feeders exactly when their network is; administrators reach all |
| Access.DashboardFilterMatchesAccess | app/utils/permissions.py:52-74 | only the super administrator gets no filter; anyone refused the dashboard, and an operator administrator without operator, gets -1; a contact gets its operator |
| Access.OperateurChoiceList | app/utils/permissions.py:104-107 | one choice per operator, its id and its name, in order |
| Access.OperateurChoicesShape | app/utils/permissions.py:101-107 | administrators get the placeholder first, then one choice per accessible operator; the placeholder is the only text key |
| Access.DefaultOperateurIsAccessible | app/utils/permissions.py:110-114 | a default exists exactly for a non-administrator with an operator, and is one they may access and choose |
| Access.RoleRequiredRuns | app/utils/decorators.py:20-39 | the view runs exactly for an active user holding a listed role; unauthenticated and inactive users are redirected to the login, in that order; a listed-role failure is a 403 |
| Access.AdminDecorators | app/utils/decorators.py:42-49 | `super_admin_required` admits only an active super administrator, `admin_required` either administrator, so the first implies the second |
| Access.OperateurAccessRefusal | app/utils/decorators.py:92-112 | a 403 exactly when the active user asks for an operator they cannot access; a super administrator is never refused; without a requested operator the view runs |
| Access.OperateurAccessRequired | app/utils/decorators.py:92-112 | an inactive or anonymous principal is sent to login; without a requested operator the view runs; an active contact asking for one raises AttributeError, since `can_access_operateur` is looked up before `int()` runs; a user's non-integer request raises ValueError, and an integer one runs the view exactly when the user may access it, else 403 |
| Access.ContactFailsBeforeInt | app/utils/decorators.py:107 | an active contact asking for operator "abc" gets AttributeError, not ValueError |
| Access.RouteArgumentFirst | app/utils/decorators.py:104 | a truthy route argument wins over the query string; otherwise the query string decides |
| Access.SameOperateurRuns | app/utils/decorators.py:115-131 | the view runs exactly for a super administrator or a user with an operator, active or not; other users get a 403 |
| Coercion.SafeIntCoerceOfString | app/utils/helpers.py:52-62 | the decimal text of any integer coerces back to it |
| Coercion.SafeIntCoerceRejects | app/utils/helpers.py:52-62 | text holding a lower-case letter coerces to None instead of raising |
| Coercion.CoercersAgree | app/production_thermique/forms.py:16-20 | `coerce_int_or_none` and `safe_int_coerce` agree wherever the first returns, and the second gives None wherever the first raises |
| Coercion.NoneTextRaises | app/production_thermique/forms.py:16-20 | the text 'None' makes `coerce_int_or_none` raise, while `safe_int_coerce` gives None |
| Coercion.CoerceIntOrNoneOfString | app/production_thermique/forms.py:16-20 | the decimal text of any integer coerces back to it |
| Coercion.FormatNumber | app/utils/helpers.py:40-44 | None is shown as '0'; any other number goes through the renderer |
| Coercion.MoisChoices | app/production_thermique/forms.py:187-193 | twelve month choices |
| Coercion.MoisChoicesRoundTrip | app/production_thermique/forms.py:187-193 | each choice is a distinct month labelled with its French name, and its submitted text coerces back to it |
| Coercion.FiltreMoisChoices | app/production_thermique/forms.py:342-345 | thirteen choices |
| Coercion.FiltreMoisChoicesLabels | app/production_thermique/forms.py:342-345 | the empty "Tous les mois" choice first, then each month with a two-digit label that reads back as the month |
| AuthForms.FirstWithUsername | app/auth/forms.py:55 | a user is found exactly when one has that username, and the one found has it |
| AuthForms.FirstWithEmail | app/auth/forms.py:60 | a user is found exactly when one has that email, and the one found has it |
| AuthForms.ValidateUsername | app/auth/forms.py:54-57 | the "already used" error exactly when an account holds the username |
| AuthForms.ValidateEmail | app/auth/forms.py:59-62 | the "already used" error exactly when an account holds the email |
| AuthForms.ValidateOperateurId | app/auth/forms.py:64-67 | an error exactly for an operator role with no operator or operator 0 |
| AuthForms.RegisteredAccount | app/auth/forms.py:36-67 | an accepted registration is new in username and email; when an operator was submitted the stored one is a listed choice, and an accepted operator-role account passes `same_operateur_required` and reaches its own operator; a blank post stores no operator |
| AuthForms.BlankOperateurAccepted | app/auth/forms.py:36 | a blank or missing operator passes `Optional()` for any role and release, so an operator-role account is accepted and stored without an operator, and `same_operateur_required` then refuses it |
| AuthForms.NoOperateurChoiceRefused | app/auth/forms.py:36-67 | submitting "Aucun opérateur" (0) from the account list is refused exactly for the operator roles under WTForms 2, and is "Not a valid choice." for every role under WTForms 3 |
| AuthForms.ZeroChoiceCoerces | app/auth/forms.py:36 | the submitted text "0" coerces to the operator id 0 |
| AuthForms.ChangeValidation | app/auth/forms.py:100-110 | keeping one's own username or email never fails; a changed one fails exactly when another account holds it |
| AuthForms.AccountOperateurChoicesShape | app/auth/forms.py:47-52 | "Aucun opérateur" comes first, then one entry per active operator, with its id and name |
| Calendar.MonthName | app/models/collecte_donnees.py:99-104 | a name exists exactly for months 1 to 12, and it is a non-empty word without spaces |
| Calendar.MonthIndexOfName | app/models/collecte_donnees.py:99-102 | each month is found again from its name |
| Calendar.MonthNameInjective | app/__init__.py:125-129 | two months with the same name are the same month |
| Calendar.MonthNameNotNumber | app/__init__.py:125-131 | no month name is the decimal text of a number |
| Calendar.MonthNameFilterInjective | app/__init__.py:122-131 | the `month_name` filter never shows two different numbers with the same text |
| Calendar.SplitPeriode | app/models/collecte_donnees.py:104 | a period label splits at its space into the month name and the year |
| Calendar.CollectePeriodeStrInjective | app/models/collecte_donnees.py:96-104 | for a real month the period label determines both the month and the year |
| Calendar.PeriodeStrAgree | app/models/distribution.py:650-657 | the collection, distribution-data and report period labels agree on months 1 to 12; outside, the collection label says 'Mois' and the data label the number |
| Calendar.RapportPeriodeStrEdges | app/models/distribution.py:461-467 | direct list indexing gives an empty name for month 0, December for -1, and raises for 13 and -14 |
| AppFilters.BucketBounds | app/__init__.py:152-186 | the seconds phrase exactly below one minute; every count shown is at least one and below the next unit (59 minutes, 23 hours, 6 days, 4 weeks, 12 months), years from 365 days |
| AppFilters.BucketMonotone | app/__init__.py:152-186 | a longer delay never falls in a smaller unit |
| AppFilters.TimeAgoSpecialCases | app/__init__.py:137-150 | no date gives "Jamais", unparsable text "Date invalide", a future date "Maintenant"; an offset-aware parsed date makes the comparison raise, a naive one is used as such |
| AppFilters.PhrasePlural | app/__init__.py:156-186 | every phrase starts "Il y a " and takes a final 's' exactly when the count is above one, except for "mois" and the seconds phrase |
| AppFilters.AgoPlural | app/__init__.py:152-186 | the text for a past instant is the phrase of the bucket of its delay |
| AppFilters.Nl2brLines | app/__init__.py:189-194 | text without line breaks is unchanged, and each line break becomes `<br>` followed by the break |
| BaseModel.ApplyKwargsOverrides | app/models/base.py:28-31 | the loop sets exactly the attributes the object already has, to the values given, and never adds one |
| BaseModel.ApplyKwargsAt | app/models/base.py:28-31 | an existing attribute takes the argument's value when one is given and keeps its own otherwise; no other name appears |
| BaseModel.BaseRecord.constructor | app/models/base.py:12-21 | a saved row holds its own columns, a new id, both dates at `now` and `actif` true |
| BaseModel.BaseRecord.Update | app/models/base.py:28-35 | the known attributes are set from the arguments, then the modification date is stamped |
| BaseModel.BaseRecord.SoftDelete | app/models/base.py:37-40 | `actif` becomes false and the UPDATE stamps the modification date; an inactive record is left as it is |
| BaseModel.BaseRecord.ToDict | app/models/base.py:42-49 | exactly the id, the two dates as ISO text and `actif`; the dictionary is built exactly when both dates render |
| NotificationsModel.TypeOfValue | app/models/notifications.py:13-22 | a type found for a text has that text as its value |
| NotificationsModel.TypeValueRoundTrip | app/models/notifications.py:13-22 | every notification type is found again from its value |
| NotificationsModel.Notification.MarquerCommeLue | app/models/notifications.py:55-58 | `lue` becomes true and the save stamps the modification date; a read notification stays as it is |
| NotificationsModel.Notification.Archiver | app/models/notifications.py:60-63 | `archivee` becomes true and the save stamps the modification date; an archived notification stays as it is |
| NotificationsModel.MarqueeLue | app/models/notifications.py:55-58 | a marked row is read; it is the row itself exactly when already read, and otherwise differs only in `lue` and a modification date of `now` |
| NotificationsModel.CssClassCases | app/models/notifications.py:65-72 | priority 3 gives the urgent class, 2 the important class, anything else (NULL included) the normal class, with the notification or message prefix |
| NotificationsModel.IconClassDistinct | app/models/notifications.py:74-87 | each type has its own icon, from which it is found again; only a missing type shows the default bell |
| NotificationsModel.MessageInterne.MarquerCommeLu | app/models/notifications.py:135-138 | `lu` becomes true with the modification date stamped; a read message stays as it is |
| NotificationsModel.MessageInterne.ArchiverPourExpediteur | app/models/notifications.py:140-143 | the sender's archive flag is set with the modification date stamped, unless it was already set; the recipient's is untouched |
| NotificationsModel.MessageInterne.ArchiverPourDestinataire | app/models/notifications.py:145-148 | the recipient's archive flag is set with the modification date stamped, unless it was already set; the sender's is untouched |
| NotificationsModel.CharIndex | app/models/notifications.py:215 | the first position of the character, or none when it does not occur |
| NotificationsModel.Field | app/models/notifications.py:215 | a plain `{name}` field resolves exactly when the variable exists, and to its value |
| NotificationsModel.FormatPlain | app/models/notifications.py:215 | `str.format` copies text without braces as it is, whatever follows |
| NotificationsModel.FormatLiteral | app/models/notifications.py:215 | a template without fields formats to itself |
| NotificationsModel.FormatField | app/models/notifications.py:215 | a keyword field is replaced by its variable, and a missing variable makes the whole call raise `KeyError` |
| NotificationsModel.FormatOneField | app/models/notifications.py:215-217 | text, one field, text: formats to the text around the variable's value, or `KeyError` |
| NotificationsModel.GenererNotification | app/models/notifications.py:209-228 | succeeds exactly when the title, message and URL all format with the variables (none given counts as empty); the notification then carries them, the user, the template's type and default priority, and no URL without a URL template |
| NotificationsModel.AccepteType | app/models/notifications.py:271-287 | a type member is answered by its own switch |
| NotificationsModel.AccepteTypeCases | app/models/notifications.py:271-287 | a member and its text are answered alike; an unknown text raises; each switch governs only its own type; the default preferences accept every type |
| NotificationServices.PreferencesOf | app/notifications/services.py:33 | the preferences found belong to the user; none exactly when the user has none |
| NotificationServices.AcceptedIdsMembers | app/notifications/services.py:80-86 | the users notified are exactly the listed ones whose preferences accept the type |
| NotificationServices.AcceptedIdsConcat | app/notifications/services.py:80-86 | the filtering keeps the order of the ids |
| NotificationServices.IdsWhere | app/notifications/services.py:100-101 | the ids of exactly the user rows that pass the query's filter |
| NotificationServices.FindUser | app/notifications/services.py:198 | a user found has the id; none exactly when no user has it |
| NotificationServices.FindUserFirst | app/notifications/services.py:198 | the user found is the first one with the id |
| NotificationServices.NewRow | app/notifications/services.py:37-46 | a new notification is unread, not archived, active, and has the given priority or the column default 1 |
| NotificationServices.InsertNotification | app/notifications/services.py:37-46 | the table gains exactly the new row, with the next id |
| NotificationServices.CreerNotification | app/notifications/services.py:20-47 | a notification is created exactly when the user's preferences (or their absence) accept the type; otherwise nothing changes; the new row holds the arguments |
| NotificationServices.NotifierPlusieursUtilisateurs | app/notifications/services.py:69-88 | one notification per accepting user, in the order of the ids, with consecutive ids; only the created ones are returned |
| NotificationServices.NotifierRole | app/notifications/services.py:90-106 | the accepting active users of the role are notified, in table order |
| NotificationServices.NotifierOperateur | app/notifications/services.py:108-124 | the accepting active users of the operator are notified, in table order |
| NotificationServices.Selected | app/notifications/services.py:131-138 | exactly the notifications the query's filter keeps, in table order |
| NotificationServices.MarquerToutes | app/notifications/services.py:140-142 | every listed notification becomes read, and each one that was unread is stamped; duplicates in the list change nothing more |
| NotificationServices.MarquerAnciennesCommeLues | app/notifications/services.py:126-146 | exactly the user's unread active notifications created before the limit become read with the modification date stamped, and their number is returned; the others are unchanged |
| NotificationServices.OutsideSelected | app/notifications/services.py:161-163 | deleting the selected rows leaves exactly the others, in order |
| NotificationServices.DeleteNotifications | app/notifications/services.py:161-163 | each listed notification leaves the table |
| NotificationServices.NettoyerNotificationsArchivees | app/notifications/services.py:148-165 | exactly the archived notifications last modified before the limit are deleted and counted; the rest stay in order |
| NotificationServices.NewMessage | app/notifications/services.py:182-189 | a new message is unread, archived for nobody and active |
| NotificationServices.SenderName | app/notifications/services.py:199 | the sender's first name when it is set and not empty, otherwise the username |
| NotificationServices.MessageNotification | app/notifications/services.py:194-201 | the announcement goes to the recipient, as a system message with the message's priority and the URL of the message |
| NotificationServices.MessageNotificationTitle | app/notifications/services.py:197 | the announcement's title is "Nouveau message: " followed by the subject |
| NotificationServices.InsertMessage | app/notifications/services.py:182-191 | the message table gains exactly the new message, with the next id |
| NotificationServices.EnvoyerMessage | app/notifications/services.py:172-204 | the message is saved first; an unknown sender then raises and no notification is made; otherwise the recipient is notified under the preferences and the message returned |
| NotificationServices.Announcement | app/notifications/services.py:194-201 | one announcement, or none when the recipient refuses system messages |
| NotificationServices.BroadcastRecipients | app/notifications/services.py:206-223 | a broadcast announces to exactly the accepting recipients, in order, with consecutive ids |
| NotificationServices.DiffuserUn | app/notifications/services.py:217-220 | one message to the recipient is saved and announced as `envoyer_message` does |
| NotificationServices.DiffuserMessage | app/notifications/services.py:206-223 | one message per recipient, in order, with consecutive ids, each announced under the preferences; an unknown sender raises after the first message is saved |
| NotificationServices.DiffuserPas | app/notifications/services.py:216-220 | one iteration of the broadcast keeps the messages and announcements so far equal to those of the recipients handled |
| NotificationServices.SelectedMessages | app/notifications/services.py:230-238 | exactly the messages the query's filter keeps, in table order |
| NotificationServices.OutsideSelectedMessages | app/notifications/services.py:241-243 | deleting the selected messages leaves exactly the others, in order |
| NotificationServices.DeleteMessages | app/notifications/services.py:241-243 | each listed message leaves the table |
| NotificationServices.NettoyerMessagesArchives | app/notifications/services.py:225-245 | exactly the messages archived by either party and last modified before the limit are deleted and counted; a surviving reply to a deleted message loses its parent and is stamped, every other survivor is unchanged |
| NotificationServices.Detachee | app/notifications/services.py:241-242 | after the deletions no survivor points to a deleted message; a row changes exactly when its parent was deleted, and then only its parent and modification date |
| NotificationServices.DetacherReponses | app/notifications/services.py:241-242 | each listed message's row is the detached row of its old one |
| NotificationServices.CreerTemplatesDefaut | app/notifications/services.py:252-327 | each default template whose code is not yet in the table is saved; the others are left |
| NotificationServices.FindActiveTemplate | app/notifications/services.py:58-60 | the template found is active and its code is the requested code, an integer compared as its decimal text (SQLite TEXT affinity of the `code` column); none exactly when no active template has that code |
| NotificationServices.CreerNotificationTemplate | app/notifications/services.py:50-66 | without an active template nothing is created; otherwise the generated notification is saved without consulting preferences, or the formatting raises |
| NotificationServices.UtiliserTemplateAsWritten | app/notifications/services.py:330-332 | with the arguments passed in the wrong order the call returns None unless an active template's code is the user id's decimal text; then that template is formatted (or its error returned) and the notification is made out to the code text |
| NotificationServices.ArgumentSwap | app/notifications/services.py:330-332 | the swapped lookup finds a template exactly when an active code is the user id's decimal text, never when every active code starts with a letter (as the default codes do), while an active template is still found by its own code |
| NotificationServices.NumericCodeFound | app/notifications/services.py:330-332 | an active template with code "5" is found for user 5 by the swapped call |
| NotificationServices.UtiliserTemplate | app/notifications/services.py:330-332 | with the arguments in order the template's notification is created as `creer_notification_template` does |
| NotificationServices.NotifierRappelRapport | app/notifications/services.py:336-347 | with the default reminder template the user gets the reminder title, message, priority 2 and the new-report URL built from the variables |
| NotificationServices.NotifierValidationRapport | app/notifications/services.py:349-360 | with the default template the user gets the validation title and message, priority 1 and the report URL |
| NotificationServices.NotifierRejetRapport | app/notifications/services.py:362-373 | with the default template the user gets the rejection title and message with the reason, priority 3 and the edit URL |
| NotificationServices.NotifierAlerteDonnees | app/notifications/services.py:375-385 | with the default template the user gets the data alert, priority 2 and the data anchor URL |
| NotificationRoutes.MarquerToutesLues | app/notifications/routes.py:110-132 | exactly the user's unread active notifications become read, stamped with the modification date, and are counted; the others are unchanged; afterwards the user has none unread |
| NotificationRoutes.ReplySubjectProperties | app/notifications/routes.py:438 | a reply's subject starts with "Re: " and ends with the original; it is the original exactly when that already starts with the prefix, so the prefix is never doubled |
| NotificationRoutes.ReplyRecipientOtherParty | app/notifications/routes.py:426-430 | the replier and the reply's recipient are the parent's two parties; a recipient answers the sender |
| NotificationRoutes.ThreadRootStable | app/notifications/routes.py:440 | a message without parent is its own thread root, and a reply attached to a root keeps that root |
| NotificationRoutes.FindMessage | app/notifications/routes.py:384 | the message found has the id; none exactly when no message has it (404) |
| NotificationRoutes.VoirMessage | app/notifications/routes.py:379-410 | unknown id 404, stranger 403, nothing changed; for a party the message is marked read, with its modification date stamped, exactly when the viewer is its unread recipient; the party then sees the message and its thread root, or gets AttributeError, with the read mark kept, when its truthy parent id names no row |
| NotificationRoutes.ReplyRow | app/notifications/routes.py:424-441 | the reply is from the replier to the other party, with the "Re: " subject, the content, the parent's thread root and priority (1 when NULL), unread and not archived |
| NotificationRoutes.RepondreMessage | app/notifications/routes.py:413-450 | 404 or 403 save nothing, nor does an invalid form; otherwise exactly the reply is appended with the next id |
| NotificationRoutes.ArchiverMessage | app/notifications/routes.py:453-472 | the recipient's flag when the user is the recipient (checked first), else the sender's flag for the sender, else 403; 404 for an unknown id; a flag newly set is saved with the modification date; no other message changes |
| NotificationRoutes.Prefill | app/notifications/routes.py:333-356 | a truthy recipient argument fills the recipient; a truthy `reponse_a` must name an existing message (404) of which the writer is a party (403), and fills the other party, the "Re: " subject and the parent id from the argument; otherwise the posted parent text stays |
| NotificationRoutes.NouveauMessage | app/notifications/routes.py:318-376 | a valid post saves exactly one new message from the writer with the form's fields and the parent `StoredParent` gives; otherwise nothing is saved |
| NotificationRoutes.StoredParentMeaning | app/notifications/routes.py:366 | a missing or empty posted parent is stored as none, a posted "0" as 0 (truthy text), any integer's decimal text as that integer, and a `reponse_a` parent as itself when non-zero |
| NotificationTemplates.FormatBuild | app/models/notifications.py:215-217 | a text with keyword fields formats to the filled text when the variables cover every field, and raises `KeyError` otherwise |
| NotificationTemplates.InstalledProperties | app/notifications/services.py:317-327 | the existing rows are kept as they are, only rows with listed codes are added, and every listed code is present afterwards |
| NotificationTemplates.InstalledNoop | app/notifications/services.py:319-327 | when every listed code is present nothing is saved |
| NotificationTemplates.InstalledIdempotent | app/notifications/services.py:252-327 | installing the defaults twice adds nothing the second time |
| NotificationTemplates.GenererFilled | app/models/notifications.py:209-228 | a template whose patterns the variables cover generates the filled title, message and link with its type and default priority |
| NotificationTemplates.RappelFilled | app/notifications/services.py:256-264 | the default reminder template, given the reminder's four variables, generates its filled title, message and link |
| NotificationTemplates.ValidationFilled | app/notifications/services.py:265-273 | the default validation template generates its filled texts |
| NotificationTemplates.RejetFilled | app/notifications/services.py:274-282 | the default rejection template generates its filled texts |
| NotificationTemplates.AlerteFilled | app/notifications/services.py:283-291 | the default data-alert template generates its filled texts |
| NotificationTemplates.RappelRapportFills | app/notifications/services.py:336-347 | the reminder shortcut supplies every field of its template: the reminder title, message, priority 2 and the new-report link |
| NotificationTemplates.ValidationRapportFills | app/notifications/services.py:349-360 | the validation shortcut fills its template: message naming the validator, priority 1, the report link |
| NotificationTemplates.RejetRapportFills | app/notifications/services.py:362-373 | the rejection shortcut fills its template: message with the reason, priority 3, the edit link |
| NotificationTemplates.AlerteDonneesFills | app/notifications/services.py:375-385 | the data-alert shortcut fills its template, whose title has no field, priority 2, the data anchor link |
| DashboardAreModel.InsertedDefaults | app/models/dashboard_are.py:143-145 | an inserted alert gets the status 'active' and priority 3 when none is given, inserting twice changes nothing, and a new alert is followed exactly when it has a due date |
| DashboardAreModel.ExpiredIffNegative | app/models/dashboard_are.py:175-189 | the days left exist exactly for an active alert with a due date; the alert is expired exactly when fewer than zero days are left, and never on its due date |
| DashboardAreModel.ExpiryMonotone | app/models/dashboard_are.py:175-189 | an expired alert stays expired as time passes, and each day takes one off the days left |
| DashboardAreModel.OnlyActiveAlertsExpire | app/models/dashboard_are.py:175-189 | a resolved or in-progress alert is never expired and has no days left |
| DistributionModel.ClientsConservation | app/models/distribution.py:594-612 | at each voltage level and in total, the month ends with its starting clients plus connections minus disconnections; the total is non-negative when no level disconnects more than it has |
| DistributionModel.ClientsFinMoisMayBeNegative | app/models/distribution.py:604-607 | nothing clamps the count: 0 clients and 3 disconnections end the month at -3 |
| DistributionModel.TauxPaiementMeaning | app/models/distribution.py:624-629 | 0 without invoices; otherwise the rate times the invoices issued is 100 times those paid, and it lies between 0 and 100 when no more are paid than issued |
| DistributionModel.TauxPertesMeaning | app/models/distribution.py:631-648 | 0 without energy bought; otherwise the total rate accounts for both losses over the energy bought, and is a percentage when the losses do not exceed it |
| DistributionModel.InsererPreservesUnique | app/models/distribution.py:586-588 | inserting keeps one row per network and period, refuses exactly a duplicate period, and otherwise appends the row |
| DistributionRoutes.TauxDesserteSansClients | app/distribution/routes.py:846-854 | without connected clients the service rate is 0 |
| DistributionRoutes.TauxDesserteBounds | app/distribution/routes.py:846-854 | with no negative client count the service rate lies between 0 and 100 |
| DistributionRoutes.TauxDesserteToutEnService | app/distribution/routes.py:846-854 | with every substation in service and some clients, the service rate is 100 |
| DistributionRoutes.VisiblesMeaning | app/distribution/routes.py:751-762 | an administrator sees every monthly record; anyone else exactly the records of their own operator |
| DistributionRoutes.DerniereSaisie | app/distribution/routes.py:769-771 | the latest entry is one of the year's records and no record has a later month |
| DistributionRoutes.StatistiquesInfrastructure | app/distribution/routes.py:738-747 | the infrastructure figures count the rows given, the in-service counts are bounded by them, and the service rate is that of the substations |
| DistributionRoutes.StatistiquesSansDonnees | app/distribution/routes.py:836-844 | without a visible record of the current year every operational figure is 0 |
| DistributionRoutes.StatistiquesAvecDonnees | app/distribution/routes.py:765-834 | with records: the clients are the end-of-month total of a latest-month record, the energy is the MWh sum over 1000, the revenue the sum, and each rate is 0 when its base is not positive |
| DistributionRoutes.TauxRecouvrementMeaning | app/distribution/routes.py:812-815 | the recovery rate times revenue over 100 is the paid part; 100 with nothing unpaid; a percentage when the unpaid part is within the revenue |
| DistributionRoutes.OrLibelle | app/distribution/routes.py:871 | a set, non-empty label is used, otherwise the placeholder |
| DistributionRoutes.DictOfSize | app/distribution/routes.py:887 | `dict(...)` of the top list has at most one key per pair |
| DistributionRoutes.DictOfMeaning | app/distribution/routes.py:887 | every key comes with a value it was paired with, and every pair's name is a key |
| DistributionRoutes.TopClientsMeaning | app/distribution/routes.py:884-887 | at most 10 substations, in descending order of clients, a prefix of the full ranking, which drops no substation with clients; none left out has more clients than one kept |
| DistributionRoutes.TopClientsCounted | app/distribution/routes.py:885 | every ranked substation has a non-zero client count |
| DistributionRoutes.GenererDonneesGraphiques | app/distribution/routes.py:858-894 | the five chart dictionaries are the counters of zones, network types, substation statuses and feeder types, and the top-10 client dictionary |
| DistributionRoutes.ZonesMeaning | app/distribution/routes.py:869-872 | the zone counts add up to the number of networks, and each zone counts the networks that carry it |
| DistributionRoutes.ZonesNonDefinie | app/distribution/routes.py:871 | 'Non définie' appears exactly when some network has no zone or names it so |
| DistributionRoutes.CompteursTotals | app/distribution/routes.py:874-892 | the type, status and feeder counters add up to the number of items counted |
| DistributionRoutes.DuMois | app/distribution/routes.py:917-922 | a month's group holds only its reports |
| DistributionRoutes.GroupesMeaning | app/distribution/routes.py:916-922 | a month has a group exactly when some report falls in it, and the group is that month's reports, in order |
| DistributionRoutes.ClesMeaning | app/distribution/routes.py:916-922 | the keys are the month labels of the reports |
| DistributionRoutes.ClesDistinct | app/distribution/routes.py:920-921 | each month is listed once |
| DistributionRoutes.GrouperParMois | app/distribution/routes.py:916-922 | the grouping loop builds exactly the groups and keys of the reports |
| DistributionRoutes.MoyenneMeaning | app/distribution/routes.py:930-932 | a monthly mean times the group size is the sum of the set values, and is non-negative without negative values |
| DistributionRoutes.MoyenneCountsFalsy | app/distribution/routes.py:930 | a report lacking the indicator still counts in the divisor: a missing value and 80 average 40 |
| DistributionRoutes.SeriesOfGroupes | app/distribution/routes.py:925-936 | series built from the groups in a given order are the report's series for that order |
| DistributionRoutes.Moyennes | app/distribution/routes.py:925-936 | the averaging loop produces one label and three means per month, in the order given |
| DistributionRoutes.OrdreElements | app/distribution/routes.py:925 | any order of the keys lists exactly the report months, each with a non-empty group |
| DistributionRoutes.GenererPerformanceReseauAsWritten | app/distribution/routes.py:896-938 | the series as the code computes them, with the months in text order of their labels |
| DistributionRoutes.GenererPerformanceReseau | app/distribution/routes.py:896-938 | the series with the months in calendar order |
| DistributionRoutes.OrdreAsWrittenMeaning | app/distribution/routes.py:925 | the code's order is sorted as text and lists each report month once |
| DistributionRoutes.ChronoCleOfLabel | app/distribution/routes.py:919 | reading a 'MM/YYYY' label back gives the month it was made from |
| DistributionRoutes.OrdreChronologiqueMeaning | app/distribution/routes.py:925-936 | in the corrected order each month appears once and every report of an earlier entry is from an earlier or the same month |
| DistributionRoutes.OrdreTexteNonChronologique | app/distribution/routes.py:925 | December 2024 and January 2025: the code lists "01/2025" before "12/2024" |
| DistributionRoutes.OrdreChronologiqueDeuxMois | app/distribution/routes.py:925 | the corrected order lists "12/2024" before "01/2025" |
| ProductionHydroModel.RapportDisponibiliteMeaning | app/models/production_hydro.py:162-167 | the report's availability is 0 without operating hours, never above 100, 100 from a full 720-hour month on, accounts exactly for the hours within the month, and is negative for negative hours (no floor) |
| ProductionHydroModel.FacteurChargeMeaning | app/models/production_hydro.py:263-269 | the load factor is 0 unless power, hours and energy are all set with positive theoretical energy; then factor × theoretical / 100 is the energy produced, and lies in (0, 100] when the energy is within the theoretical one |
| ProductionHydroModel.GroupeDisponibiliteMeaning | app/models/production_hydro.py:271-277 | the group's availability is 100 minus the stopped share of a 720-hour month: 100 without stops, 0 for a whole month, negative beyond it, a percentage in between |
| ProductionHydroModel.DictFallbacks | app/models/production_hydro.py:296-297 | the dictionary keeps a stored non-zero load factor or availability and otherwise shows the computed one, so a stored 0 availability without stops shows 100 |
| ProductionHydroApi.ApiFacteurChargeMeaning | app/production_hydro/routes_api.py:112-139 | the endpoint succeeds exactly when the three fields convert (a non-object body is a server error); the value is within [0, 100], 0 without positive power and hours, and otherwise accounts for the energy produced |
| ProductionHydroApi.ApiFacteurChargeEdges | app/production_hydro/routes_api.py:119-121 | an empty object computes 0 from the defaults; a non-numeric text or a null field gives 'Données invalides' |
| ProductionHydroApi.ApiAgreesWithGroupe | app/production_hydro/routes_api.py:123-126 | on positive power and hours the endpoint returns the group's own load factor, clamped into [0, 100] |
| ProductionHydroApi.ApiDisponibiliteMeaning | app/production_hydro/routes_api.py:142-169 | the availability endpoint succeeds exactly when the three fields convert; the value is within [0, 100], 0 for a non-positive period, and otherwise 100 minus the stopped share of the period |
| ProductionHydroApi.ApiDisponibiliteAgreesWithGroupe | app/production_hydro/routes_api.py:151-157 | without a period given, the endpoint uses the 720-hour month and returns the group's availability clamped |
| ProductionHydroApi.PreremplieShape | app/production_hydro/routes_api.py:50-76 | a pre-filled entry has exactly the listed keys, copies each identity column and leaves every operating column empty |
| ProductionHydroApi.ChampsGroupeDisjoints | app/production_hydro/routes_api.py:50-76 | no group column is both copied and emptied |
| ProductionHydroApi.ChampsTransformateurDisjoints | app/production_hydro/routes_api.py:81-103 | no transformer column is both copied and emptied |
| ProductionHydroApi.FindCentrale | app/production_hydro/routes_api.py:41 | the plant found has the id asked for; none is found exactly when no plant has it |
| ProductionHydroApi.ApiEquipementsAsWritten | app/production_hydro/routes_api.py:37-50 | as written the endpoint always fails: 404 exactly for an unknown plant, 500 exactly when the plant exists and the user may see it, 403 otherwise |
| ProductionHydroApi.ApiEquipementsAsWrittenFails | app/production_hydro/routes_api.py:49 | the 500 comes exactly where the corrected endpoint succeeds; every refusal is the corrected one |
| ProductionHydroApi.ApiEquipements | app/production_hydro/routes_api.py:37-110 | corrected endpoint: it aborts only with 404 or 403 |
| ProductionHydroApi.ApiEquipementsMeaning | app/production_hydro/routes_api.py:37-110 | corrected endpoint: 404 exactly for an unknown plant; a success means access to its operator and one entry per group and per transformer, identities copied, operating data empty |
| ProductionHydroForms.CentraleChoices | app/production_hydro/forms.py:285-290 | the choice loop yields the placeholder and then one "nom (code)" choice per plant, in order |
| ProductionHydroForms.CentraleChoicesIndex | app/production_hydro/forms.py:287-289 | entry k + 1 offers plant k's id under a label starting with its name and ending with its code in brackets |
| ProductionHydroForms.RapportHydroForm.constructor | app/production_hydro/forms.py:276-283 | a missing or zero year or month is replaced by today's; the dates are kept |
| ProductionHydroForms.RapportHydroForm.PopulateCentrales | app/production_hydro/forms.py:285-290 | the plant choices become the placeholder and the plants' choices; nothing else changes |
| ProductionHydroForms.RapportHydroForm.Validate | app/production_hydro/forms.py:292-305 | the form is valid exactly when the field validators pass and the end date is not before the start date; one error is added to the end date exactly when that check fails |
| ProductionHydroForms.FiltreRapportForm.constructor | app/production_hydro/forms.py:310-311 | the filter starts with the "all plants" and "all years" placeholders only |
| ProductionHydroForms.FiltreRapportForm.PopulateCentrales | app/production_hydro/forms.py:323-328 | the plant choices become the placeholder and the plants' choices; the years are kept |
| ProductionHydroForms.FiltreRapportForm.PopulateAnnees | app/production_hydro/forms.py:330-335 | the year choices become the placeholder and the years sorted most recent first; the plants are kept |
| ProductionHydroForms.AnneeChoicesOrdered | app/production_hydro/forms.py:330-335 | the year list has one choice per year on record, is a permutation of them and is in non-increasing order |
| ProductionThermiqueApi.Chiffres | app/production_thermique/routes_api.py:87-97 | a numeric filter applies exactly when the parameter is present, non-empty and all decimal digits, and its value is then non-negative |
| ProductionThermiqueApi.Affiner | app/production_thermique/routes_api.py:89-110 | one refinement keeps exactly the reports already chosen that meet the condition |
| ProductionThermiqueApi.Selectionner | app/production_thermique/routes_api.py:77-110 | the refined query holds exactly the reports of accessible plants that meet every condition the parameters switch on; a search matching no plant leaves nothing |
| ProductionThermiqueApi.LigneAgreesWithLock | app/production_thermique/routes_api.py:165-166 | `can_edit` holds exactly when the edit page's lock lets the user through; `can_delete` implies `can_edit`, and on a transmitted report the two agree |
| ProductionThermiqueApi.ApiFilters | app/production_thermique/routes_api.py:65-167 | 403 exactly for a user who is neither administrator nor tied to an operator; otherwise one line per retained report, most recent period first, with its permission flags |
| ProductionThermiqueApi.StatsMeaning | app/production_thermique/routes_api.py:117-140 | without an accessible plant every summary figure is 0; validated plus draft reports never exceed the total, which never exceeds the reports; the plant count is the accessible plants' |
| ProductionThermiqueApi.ApiStatistiquesMeaning | app/production_thermique/routes_api.py:16-62 | no accessible plant gives empty statistics; every report of an accessible plant has its fuel listed, and its month when of the current year; every month listed comes from such a report |
| ProductionThermiqueRoutes.PeriodeParDefautMeaning | app/production_thermique/routes_main.py:155-161 | the default period exists exactly for a valid month whose successor is a valid date, starts on the first of the month and ends on the first of the next month, December rolling into January |
| ProductionThermiqueRoutes.PrefillMeaning | app/production_thermique/routes_main.py:149-166 | entered year, month and dates are kept, the missing ones get today's and the month's bounds, filling twice changes nothing, and it fails exactly when the period cannot be built |
| ProductionThermiqueRoutes.AccessibleCentrales | app/production_thermique/utils.py:8-17 | exactly the active plants, all of them for an administrator and those of the user's operator otherwise |
| ProductionThermiqueRoutes.ModifiableCases | app/production_thermique/routes_main.py:302-342 | a transmitted report may be changed only by the super administrator; any other report by anyone who reaches it |
| ProductionThermiqueRoutes.FindCentrale | app/production_thermique/routes_main.py:104 | the plant found has the id asked for; none found means no plant has it |
| ProductionThermiqueRoutes.FindRapport | app/production_thermique/routes_main.py:294-334 | the index found holds the id asked for; -1 means no report has it |
| ProductionThermiqueRoutes.Registre.constructor | app/production_thermique/routes_main.py:141 | the table starts empty with the next id 1 |
| ProductionThermiqueRoutes.Registre.Inserer | app/production_thermique/routes_main.py:141 | `save` appends the report carrying the next id and advances the id |
| ProductionThermiqueRoutes.AppendKeepsUnique | app/production_thermique/routes_main.py:109-122 | adding a report whose plant and month are free keeps one report per plant and month |
| ProductionThermiqueRoutes.NouveauRapport | app/production_thermique/routes_main.py:89-172 | no accessible plant redirects; a report is saved exactly when a form is submitted for an existing plant the user owns (or the user is an administrator) and a free period, with every field from the form; one report per plant and month is kept and a refusal changes nothing |
| ProductionThermiqueRoutes.NouveauRapportCentrale | app/production_thermique/routes_main.py:175-271 | the plant must be accessible and the period free; the saved report always starts as 'brouillon'; one report per plant and month is kept and a refusal changes nothing |
| ProductionThermiqueRoutes.ModifierRapport | app/production_thermique/routes_main.py:290-327 | 404 for an unknown report, 403 outside the accessible plants, the lock on transmitted reports; a submission overwrites exactly that report with the form and nothing else changes |
| ProductionThermiqueRoutes.ModificationMayDuplicate | app/production_thermique/routes_main.py:310-315 | editing has no period check: moving a report onto the month of another report of the same plant leaves two reports for that month |
| ProductionThermiqueRoutes.SupprimerRapport | app/production_thermique/routes_main.py:330-352 | the same guards as editing; a deletion removes exactly that report and keeps one report per plant and month |
| ProductionThermiqueRoutes.RemoveKeepsUnique | app/production_thermique/routes_main.py:346-347 | removing a report keeps one report per plant and month |
| TransportRoutes.VerifierPermissionMeaning | app/transport/routes.py:26-30 | the check is the shared operator-access rule on a set operator: an administrator passes, anyone else exactly on their own operator, and a user without an operator never |
| TransportRoutes.LignesRetenuesMeaning | app/transport/routes.py:55-79 | a line is listed exactly when it is in the user's scope, meets every truthy filter and is active; a listed line passes the operator check |
| TransportRoutes.TensionMinZeroIgnored | app/transport/routes.py:72-73 | a lower voltage bound of 0 is falsy and filters nothing |
| TransportRoutes.PostesRetenusMeaning | app/transport/routes.py:55-80 | a substation is listed exactly when it is in the user's scope, meets the operator and status filters and is active; the voltage filters do not apply |
| TransportRoutes.StatistiquesMeaning | app/transport/routes.py:83-90 | the dashboard counts the listed rows, the in-service counts are within them and equal them when every line is in service, and the total length is non-negative without negative lengths |
| TransportRoutes.CountAll | app/transport/routes.py:88-89 | counting rows that all qualify gives the number of rows |
| TransportRoutes.GenererDonneesGraphiques | app/transport/routes.py:812-837 | the counting loops build the voltage buckets and the line and substation status counters, and leave the unavailability series empty |
| TransportRoutes.RepartitionTensionTotal | app/transport/routes.py:823-825 | the voltage buckets' counts add up to the number of lines |
| TransportRoutes.RepartitionTensionKeys | app/transport/routes.py:823-825 | every bucket is some line's voltage followed by " kV", and every line's voltage has a bucket |
| TransportRoutes.TensionCleSuffix | app/transport/routes.py:824 | each bucket key ends in " kV" |
| TransportRoutes.StatutsTotals | app/transport/routes.py:828-835 | the status counters add up to the number of lines and of substations |
| TransportRoutes.FindPoste | app/transport/routes.py:423 | the substation found has the id asked for; none found means no substation has it |
| TransportRoutes.SupprimerPosteMeaning | app/transport/routes.py:418-446 | 404 exactly for an unknown substation; a deletion needs the operator check and no active transformer on it, and only clears the active flag; a refusal means some active transformer remains |
| TransportRoutes.NouveauRapportAsWritten | app/transport/routes.py:699-715 | as written the handler ends in a server error whatever is submitted |
| TransportRoutes.NouveauRapportAsWrittenFails | app/transport/routes.py:715 | as written every request fails with a server error, which the corrected handler never gives |
| TransportRoutes.NouveauRapport | app/transport/routes.py:718-737 | corrected handler: never a server error; a report is created only for the submitted, non-zero line |
| TransportRoutes.NouveauRapportMeaning | app/transport/routes.py:718-737 | with the 0 entries read as none, the guard refuses exactly the submissions with neither a substation nor a line; a report is created exactly when a line is chosen, and otherwise the insert fails |
| TransportRoutes.FiabiliteMeaning | app/transport/routes.py:863 | reliability is never negative, at most 100, exactly 100 without incidents, exactly 0 from 10 incidents on, and 100 − 10 per incident in between |
| TransportRoutes.GenererPerformanceLigne | app/transport/routes.py:839-867 | one label, availability, reliability and load per report, in the order of the reports |
| AreServices.ReseauxDeProvince | app/are/services.py:26 | exactly the active networks of the province |
| AreServices.ReseauxDeOperateur | app/are/services.py:155-158 | exactly the active networks of the operator |
| AreServices.PopulationDesservie | app/are/services.py:32-42 | the served population is four persons per client of each network's latest report of the year |
| AreServices.SommeClientsNonNegative | app/are/services.py:40-42 | with no negative client count the served clients add up to a non-negative total |
| AreServices.PopulationProvince | app/are/services.py:45-48 | a population found is that of a row of the province and year; none when no row matches |
| AreServices.PopulationProvinceFirst | app/are/services.py:45-48 | the population is that of the first row of the province and year |
| AreServices.CalculerTauxAccesProvince | app/are/services.py:23-54 | the province's access rate is the rate of its active networks over its population, and never above 100 |
| AreServices.TauxAccesMeaning | app/are/services.py:28-54 | the rate is 0 without networks or population, at most 100, below the cap it is four persons per client over the population in percent, and it is not negative for a non-negative client total |
| AreServices.ProductionNonNegative | app/are/services.py:77-79 | the summed production of reports without negative energy is not negative |
| AreServices.MixMeaning | app/are/services.py:105-114 | with a positive total the three shares add up to 100 and each gives back its production; otherwise every field is 0; the total is never negative and non-negative productions give percentages |
| AreServices.FacteurChargeMeaning | app/are/services.py:145-151 | the load factor is 0 without installed power; otherwise factor × power × 8760 h / 100 is the production, a percentage when the production is within the maximum |
| AreServices.PerformanceMeaning | app/are/services.py:122-177 | an operator's entry carries its id, its production is its mix total and never negative, its load factor reflects its installed power, and its clients are those of its active networks |
| AreServices.ClientsTotal | app/are/services.py:154-167 | the client loop adds up the latest end-of-year client count of each network |
| AreServices.CalculerPerformanceOperateurs | app/are/services.py:117-179 | one entry per active operator, in table order, each the operator's performance |
| AreServices.LikeContains | app/are/services.py:197 | a text containing the code matches the `%code%` pattern |
| AreServices.KpisCritiques | app/are/services.py:187-190 | exactly the active KPIs with an alert threshold |
| AreServices.AlerteKpiExistante | app/are/services.py:195-199 | an alert found is in the table and covers the code; none is found exactly when no alert covers it |
| AreServices.AlerteKpiCouvre | app/are/services.py:202-205 | the alert created for a KPI is one the lookup of its code finds |
| AreServices.AlertesKpiCreees | app/are/services.py:192-214 | the alerts already there are kept, and each alert added is that of a KPI below its threshold that no earlier alert covered |
| AreServices.AlertesKpiCouvrent | app/are/services.py:192-214 | after the loop every KPI below its threshold has an alert the lookup finds |
| AreServices.GenererAlertesKpi | app/are/services.py:184-214 | the KPI loop leaves the table extended by exactly the alerts it returns |
| AreServices.DernierRapport | app/are/services.py:222-232 | the latest report date is that of one of the operator's reports of the stream and no such report is later; none exactly when there is none |
| AreServices.VerifierRetardsAsWritten | app/are/services.py:234-256 | as written, the first late stream raises (the operator has no `nom_commercial`), exactly when some active operator is late; otherwise nothing is created |
| AreServices.AlerteRetardExistante | app/are/services.py:236-241 | an alert found is in the table and covers the operator and stream; none exactly when no alert covers them |
| AreServices.AlerteRetardCouvre | app/are/services.py:244-251 | the delay alert created is one the lookup finds |
| AreServices.RetardsOperateurCouvrent | app/are/services.py:234-256 | checking an operator keeps the existing alerts, and each of its late streams then has an alert the lookup finds |
| AreServices.RetardsCouverts | app/are/services.py:220-256 | after every operator is checked, each late stream of each operator has an active administrative alert, and the earlier alerts are kept |
| AreServices.VerifierRetardsOperateur | app/are/services.py:234-256 | one operator's loop leaves the table extended by exactly the alerts it returns |
| AreServices.VerifierRetards | app/are/services.py:216-256 | the delay half, with the operator named by its name, extends the table by exactly the alerts of every active operator's late streams |
| AreServices.GenererAlertesAutomatiquesAsWritten | app/are/services.py:182-258 | the KPI alerts stay saved whether or not the delay half then raises, and it raises exactly when some active operator is late |
| AreServices.GenererAlertesAutomatiques | app/are/services.py:182-258 | the corrected run: the KPI alerts, then the delay alerts, and the table grows by exactly the alerts returned |
| AreServices.FindKpi | app/are/services.py:283-286 | the KPI found is the first row with the code and year; none exactly when no row has them |
| AreServices.FindKpiUnique | app/are/services.py:283-286 | the first row with the code and year is the one found |
| AreServices.FindKpiSameKeys | app/are/services.py:283-286 | two tables with the same keys row by row answer every lookup alike |
| AreServices.FindKpiAppend | app/are/services.py:288-299 | appending a row of another key changes no lookup of this key, and appending to a table without the key makes the new row the one found |
| AreServices.UpsertKpi | app/are/services.py:283-305 | after the create-or-update step the lookup finds the row holding the new value, a missing KPI is appended, every other row and every other key's lookup are as before |
| AreServices.AtteintMeaning | app/are/services.py:360-363 | with an objective the KPI is reached exactly when its value is at least the objective; without one nothing changes; key and value stay, and marking twice is marking once |
| AreServices.MarquerAtteints | app/are/services.py:359-363 | the marking loop marks exactly the updated rows and keeps the others |
| AreServices.MarquerGardeCles | app/are/services.py:359-363 | marking changes no key, so every lookup answers as before |
| AreServices.TauxProvinces | app/are/services.py:266-275 | one access rate per province of the fixed list of eleven, in order |
| AreServices.TauxNationalMeaning | app/are/services.py:276-281 | the national rate exists exactly when some province has a positive rate, is then positive, and at most 100 when every provincial rate is |
| AreServices.TauxNationalAuPlus100 | app/are/services.py:274-281 | the national access rate never exceeds 100 |
| AreServices.SommerTauxProvinces | app/are/services.py:271-278 | the province loop yields the sum and the number of the positive provincial rates |
| AreServices.MettreAJourTauxAcces | app/are/services.py:265-305 | when some province has data, the national rate is upserted under TAUX_ACCES_NATIONAL; otherwise the table is unchanged; no other key's lookup changes |
| AreServices.UpsertSuivant | app/are/services.py:307-357 | one more upsert keeps the rows already upserted under other codes and holds the new value |
| AreServices.UpsertProductionOperateurs | app/are/services.py:307-357 | the national production total and the number of active operators are upserted under their codes, keeping the access rate row |
| AreServices.MarqueApresUpsert | app/are/services.py:359-363 | a row upserted and then marked is the KPI's update |
| AreServices.MettreAJourKpisStrategiques | app/are/services.py:261-365 | the access rate (when known), the national production and the number of active operators each end up as their code's row of the year with its reached flag; two or three KPIs are returned and no other row changes |
| AreStatistiques.FacteurChargeMeaning | app/are/services_statistiques.py:295-303 | the load factor is 0 without capacity, never above 100, below the cap it is the production over capacity × 8.76 GWh in percent, 100 from the full-year production on, and not negative for a non-negative production |
| AreStatistiques.SommeSqlNull | app/are/services_statistiques.py:33 | a SQL `SUM` is NULL exactly when every value is NULL |
| AreStatistiques.SommeReduite | app/are/services_statistiques.py:33-34 | `SUM(column * k)` is `SUM(column) * k`, and the two are NULL together |
| AreStatistiques.OperateursEnService | app/are/services_statistiques.py:31-38 | each operator listed owns an active plant in service by the end of the year |
| AreStatistiques.GroupesMeaning | app/are/services_statistiques.py:38 | `GROUP BY operateur_id` lists each operator owning such a plant once |
| AreStatistiques.PurgerCapacites | app/are/services_statistiques.py:28 | the deletion keeps exactly the rows of the other years |
| AreStatistiques.LignesHydro | app/are/services_statistiques.py:40-61 | the hydro loop saves one row per operator group |
| AreStatistiques.EnregistrerHydro | app/are/services_statistiques.py:40-61 | the hydro loop's rows are those of the group list |
| AreStatistiques.LignesHydroMeaning | app/are/services_statistiques.py:50-60 | every hydro row carries its operator, the year and the hydro source, an available capacity of 90% of the installed one, and a load factor of at most 100 |
| AreStatistiques.LotInterrompu | app/are/services_statistiques.py:86-117 | once a thermal or solar loop has raised, the later groups change nothing |
| AreStatistiques.EnregistrerReduites | app/are/services_statistiques.py:72-123 | the thermal and solar loops stop at the first group that raises |
| AreStatistiques.LotReduitComplet | app/are/services_statistiques.py:86-117 | a thermal or solar loop runs to its end exactly when every group has a non-NULL power (`None * 0.85` raises), then saving one row per group |
| AreStatistiques.LotReduitLignes | app/are/services_statistiques.py:81-123 | every row such a loop saves is for the year, the source and one of the groups, with 85% or 80% of the installed capacity available and a load factor of at most 100 |
| AreStatistiques.CalculerCapaciteInstallee | app/are/services_statistiques.py:24-130 | success exactly for a valid year whose every loop completes, replacing the year's rows by the new ones; on failure only what the rows already committed made permanent remains |
| AreStatistiques.ConversionsMeaning | app/are/services_statistiques.py:262-283 | MWh to GWh divides by 1000, kWh to GWh by a million, the two agree, and a non-negative figure only shrinks |
| AreStatistiques.TypesAnnee | app/are/services_statistiques.py:140-147 | each source listed has a capacity row of the year |
| AreStatistiques.GroupesDe | app/are/services_statistiques.py:140-147 | the source groups follow the sources, one group each |
| AreStatistiques.GroupesSourcesMeaning | app/are/services_statistiques.py:140-147 | `GROUP BY type_source` yields one group per source, each summing its own source's rows |
| AreStatistiques.AccumulerCapacites | app/are/services_statistiques.py:162-175 | the accumulation loop yields the totals of the groups |
| AreStatistiques.TotauxSommes | app/are/services_statistiques.py:162-165 | each national total is the sum over the source groups |
| AreStatistiques.PartAbsente | app/are/services_statistiques.py:150-160 | a source without a group keeps its capacity and production at 0 |
| AreStatistiques.PartDuGroupe | app/are/services_statistiques.py:167-175 | with distinct sources, a production source's entries are those of its own group |
| AreStatistiques.TotauxDecomposes | app/are/services_statistiques.py:162-175 | with only production sources, each national total is the sum of the hydro, thermal and solar entries |
| AreStatistiques.ColonneReal | app/are/services_statistiques.py:178-188 | each value read comes from a client record of the year |
| AreStatistiques.SommeBornee | app/are/services_statistiques.py:183-185 | over percentages, the SQL sum is NULL exactly when no value is set and lies between 0 and 100 per value |
| AreStatistiques.MoyenneMeaning | app/are/services_statistiques.py:183-185 | `AVG` is NULL exactly with the sum, times the number of set values gives the sum, and a mean of percentages is a percentage |
| AreStatistiques.PurgerNationales | app/are/services_statistiques.py:137 | the deletion keeps exactly the national rows of the other years |
| AreStatistiques.CalculerStatistiquesNationales | app/are/services_statistiques.py:133-222 | the year's national row is replaced by the new aggregate |
| AreStatistiques.UneStatistiqueParAnnee | app/are/services_statistiques.py:137-215 | after the step the year has exactly one national row, the new one, and no other year's row is lost |
| AreStatistiques.NationaleMeaning | app/are/services_statistiques.py:140-214 | the totals are sums over the source groups and split into the three sources when only production rows exist, the operator count is within the table, and the access rate is a percentage when every record's is |
| AreStatistiques.SansEspaces | app/are/services_statistiques.py:259 | replacing spaces keeps the length and puts '_' exactly where a space was |
| AreStatistiques.ReplaceEspaces | app/are/services_statistiques.py:259 | `replace(' ', '_')` is that character-wise replacement |
| AreStatistiques.NormaliserTypeMeaning | app/are/services_statistiques.py:259 | the normalised type keeps the length, has no space and no upper-case ASCII letter, and has '_' where each space was |
| AreStatistiques.PremierNomme | app/are/services_statistiques.py:255 | an operator found has the name asked for; none found means no operator has it |
| AreStatistiques.Lignes2024 | app/are/services_statistiques.py:253-265 | one 2024 row per entry of the fixed list |
| AreStatistiques.Lignes2024Meaning | app/are/services_statistiques.py:229-265 | each 2024 row carries its entry's capacity and its production in GWh, and an operator id exactly when an operator has the entry's name |
| AreStatistiques.LignesEvolutionMeaning | app/are/services_statistiques.py:268-285 | the evolution loop adds four national rows, 2020 to 2023, without operator, each with its production in GWh |
| AreStatistiques.NombreApresPurge | app/are/services_statistiques.py:251 | deleting a year's rows leaves that year with none and every other year with its count |
| AreStatistiques.NombreEvolution | app/are/services_statistiques.py:276-285 | the evolution rows hold one row for each of 2020 to 2023 and none for other years |
| AreStatistiques.AjouterLignes2024 | app/are/services_statistiques.py:253-265 | the loop saves the 2024 row of each entry, in order |
| AreStatistiques.AjouterEvolution | app/are/services_statistiques.py:276-285 | the loop saves the national row of each evolution entry other than 2024, in order |
| AreStatistiques.GenererDonneesTableauSolaire | app/are/services_statistiques.py:225-292 | the solar step leaves the table the function of the old table and the operators |
| AreStatistiques.TableauSolaireRelance | app/are/services_statistiques.py:251-285 | each run leaves 2024 with exactly three rows but appends one more national row for each of 2020 to 2023; other years are untouched |
| AreStatistiques.CalculerToutesStatistiques | app/are/services_statistiques.py:306-334 | the pipeline succeeds exactly when the capacity step does; a failure leaves the solar and national tables untouched, and a success runs the solar step and then the national aggregate over the new capacity rows |
| AreReel.FacteurChargeReelMeaning | app/are/services_reel.py:326-338 | the load factor from real data equals the yearly statistics' one (capacity × 8.760 is capacity × 8760 / 1000): 0 without capacity, never above 100 |
| AreReel.OperateursReels | app/are/services_reel.py:37-47 | each operator listed owns an active plant commissioned by the end of the year or without a commissioning date |
| AreReel.CentraleRetenue | app/are/services_reel.py:41-47 | every such plant's operator is listed |
| AreReel.CapacitesReellesEchouent | app/are/services_reel.py:43-46 | an active plant without a commissioning date always forms a group |
| AreReel.CalculerCapacitesReellesAsWritten | app/are/services_reel.py:25-151 | as written, the step succeeds exactly for a valid year with no group at all (the production query names columns the report does not have), then only deleting the year's rows; otherwise nothing changes |
| AreReel.LignesReelles | app/are/services_reel.py:49-72 | one row per operator group, each the group's row |
| AreReel.EnregistrerReelles | app/are/services_reel.py:49-144 | each loop saves the rows of its group list |
| AreReel.CalculerCapacitesReelles | app/are/services_reel.py:25-151 | the corrected step succeeds exactly for a valid year and replaces the year's rows by one row per source and operator; a failure changes nothing |
| AreReel.LignesReellesMeaning | app/are/services_reel.py:60-142 | every saved row is for the year, the source and its group's operator, with 90%, 85% or 80% of the installed capacity available, and a load factor of at most 100 |
| AreReel.CollectesDeAsWrittenVides | app/are/services_reel.py:170-174 | as written the validated-collection query finds nothing in any table |
| AreReel.CollectesDe | app/are/services_reel.py:170-174 | corrected query (member comparison): the collections kept are the operator's own of the year, and every validated one of them is kept |
| AreReel.LigneClienteleMeaning | app/are/services_reel.py:179-215 | the saved counts are the nets clamped at 0 and add up to at least the saved total; the estimates are 0 unless the total is positive and then the truncated 85%, 75% and 90% of it, in that order within the total; coverage is twice the localities up to 100 and the access rate the clients over 1000 up to 100 |
| AreReel.EstimationsOrdonnees | app/are/services_reel.py:209-211 | for a positive total the 75%, 85% and 90% estimates are ordered and within the total |
| AreReel.ClienteleAnnee | app/are/services_reel.py:166-219 | at most one record per active operator |
| AreReel.CalculerClienteleReelleAsWritten | app/are/services_reel.py:154-226 | as written the step deletes the year's client records and saves none |
| AreReel.CalculerClienteleReelle | app/are/services_reel.py:154-226 | corrected step: the year's client records are replaced by those of the operators with validated collections |
| AreReel.ClienteleAnneeMeaning | app/are/services_reel.py:166-219 | a record is saved exactly for each active operator with a validated collection of the year, built from that operator's collections |
| AreReel.AccumulerCapacitesAsWritten | app/are/services_reel.py:262-275 | the accumulation loop as written yields its totals |
| AreReel.TotauxAsWrittenMeaning | app/are/services_reel.py:262-275 | as written, the national totals agree with the yearly statistics' but every per-source entry stays 0, since the enumeration is compared with a text |
| AreReel.PartHydroPerdue | app/are/services_reel.py:267-269 | one 5 MW hydro group: the intended loop reports 5 MW of hydro, the loop as written 0 |
| AreReel.CalculerStatistiquesNationalesReellesAsWritten | app/are/services_reel.py:229-323 | the year's national row is replaced by the aggregate with the as-written totals |
| AreReel.CalculerToutesStatistiquesReellesAsWritten | app/are/services_reel.py:341-375 | the pipeline as written succeeds exactly when no plant forms a group; a failure changes nothing; a success deletes the year's capacities and client records and rebuilds the national row |
| AreReel.CalculerToutesStatistiquesReelles | app/are/services_reel.py:341-375 | the corrected pipeline succeeds exactly for a valid year and rebuilds the capacities from the reports, the client records from the validated collections, and the national row with its per-source entries |
| AreDashboardRoutes.Annees | app/are/dashboard/routes.py:91 | `range(debut, fin + 1)`: one year per position, from the first year on, as many as the range holds |
| AreDashboardRoutes.RemplirGraphiques | app/are/dashboard/routes.py:89-122 | the labels are the years of the range; every series has one entry per year, each the year's per-source capacity, the production of its national record, and its clients |
| AreDashboardRoutes.ProductionAnneeAbsente | app/are/dashboard/routes.py:115-116 | a year without a national record shows production 0 |
| AreDashboardRoutes.ProductionAnneePremiere | app/are/dashboard/routes.py:115-116 | a year with national records shows the production of the first of them |
| AreDashboardRoutes.CapaciteAnneeMeaning | app/are/dashboard/routes.py:104-109 | a year's capacity is additive over a split of the rows, non-negative with non-negative capacities, and 0 without a row of that year and source |
| AreDashboardRoutes.PerformancesMeaning | app/are/dashboard/routes.py:440-441 | a chosen operator keeps exactly its own performances, never more than there were |
| AreDashboardRoutes.ProvincesMeaning | app/are/dashboard/routes.py:446 | exactly the province records of the year |
| AreDashboardRoutes.IndexMeaning | app/are/dashboard/routes.py:438-447 | without an operator every performance and exactly the year's province data are shown; with one, only its performances and no province data |
| AreDashboardRoutes.IndexGroupe | app/are/dashboard/routes.py:498 | a group found carries the key; none found means no group has it |
| AreDashboardRoutes.Grouper | app/are/dashboard/routes.py:495-500 | the grouping loop builds the dictionary of the elements |
| AreDashboardRoutes.AjouterCles | app/are/dashboard/routes.py:498-500 | one turn keeps the keys when the key is known and appends it otherwise |
| AreDashboardRoutes.RegrouperCles | app/are/dashboard/routes.py:495-500 | the dictionary's keys are the distinct keys of the elements, in order of first appearance |
| AreDashboardRoutes.AjouterMembres | app/are/dashboard/routes.py:498-500 | one turn keeps every group exact |
| AreDashboardRoutes.RegrouperDistincts | app/are/dashboard/routes.py:497-500 | the groups have pairwise different keys, and a key that has no group is the key of no element |
| AreDashboardRoutes.RegrouperMembres | app/are/dashboard/routes.py:495-500 | each key's list is exactly the elements with that key, in their order |
| AreDashboardRoutes.PrefixeMeaning | app/are/dashboard/routes.py:497 | `code.split('_')[0]` is the longest start of the code without '_', and the code goes on with '_' if at all |
| AreDashboardRoutes.KpisRetenus | app/are/dashboard/routes.py:488-490 | exactly the active KPIs of the year, and of the operator when one is chosen |
| AreDashboardRoutes.ParCodeTotal | app/are/dashboard/routes.py:492 | ordering by code is a total preorder |
| AreDashboardRoutes.IndicateursRetenus | app/are/dashboard/routes.py:503-506 | exactly the active indicators of the year, and of the operator when one is chosen |
| AreDashboardRoutes.PageKpis | app/are/dashboard/routes.py:479-514 | the KPIs page groups the retained KPIs sorted by code by their prefix, and the retained indicators by category |
| AreDashboardRoutes.PageKpisMeaning | app/are/dashboard/routes.py:488-500 | the listed KPIs are a sorted permutation of the retained ones, the groups' keys are their distinct prefixes in order, and every group holds exactly the KPIs of its prefix |
| AreStatistiquesAvancees.PuissancesCroissantes | app/are/dashboard/routes.py:205-218 | a plant in service by a year is in service every later year: with non-negative capacities the active capacity in service is non-negative and never falls |
| AreStatistiquesAvancees.SommeSnoc | app/are/dashboard/routes.py:205-208 | adding a row to a `SUM(...) or 0` adds its capacity, a NULL as 0 |
| AreStatistiquesAvancees.EvolutionCapacites | app/are/dashboard/routes.py:203-225 | one entry per year of the range, each that year's capacities in service by source |
| AreStatistiquesAvancees.EvolutionCapaciteMeaning | app/are/dashboard/routes.py:220-225 | the total is the sum of the three sources, each non-negative, and none falls from a year to a later one |
| AreStatistiquesAvancees.EvolutionProductions | app/are/dashboard/routes.py:229-252 | one entry per year of the range, each that year's production by source |
| AreStatistiquesAvancees.EvolutionProductionMeaning | app/are/dashboard/routes.py:246-252 | each figure is the year's active MWh sum over 1000 and the total is the sum of the three sources |
| AreStatistiquesAvancees.MoisMaxMeaning | app/are/dashboard/routes.py:257-263 | the last month is absent exactly when the year has no active record; otherwise it is one of their months and none is later |
| AreStatistiquesAvancees.TauxPaiementMeaning | app/are/dashboard/routes.py:333 | without invoices issued the payment rate is 0; otherwise it is paid over issued in percent, within 0..100 when at most all were paid |
| AreStatistiquesAvancees.EvolutionClientele | app/are/dashboard/routes.py:255-334 | one entry per year of the range, each that year's clients at its last month and its billing |
| AreStatistiquesAvancees.CapaciteSolaireDomestique | app/are/dashboard/routes.py:336-344 | exactly the years of the range are keys, each mapped to 30% of that year's solar capacity in service |
| AreStatistiquesAvancees.SolaireDomestiqueCroissant | app/are/dashboard/routes.py:344 | with non-negative capacities the domestic share is non-negative, at most the whole, and never falls from a year to a later one |
| AreStatistiquesAvancees.StatistiqueDe | app/are/dashboard/routes.py:364 | a record found is of the year; none found means no record is |
| AreStatistiquesAvancees.TauxElectrification | app/are/dashboard/routes.py:360-397 | one entry per year of the range, each from the year's national record or estimated |
| AreStatistiquesAvancees.TauxEstimeMeaning | app/are/dashboard/routes.py:381-397 | 5 persons per client, access as persons over 105 million in percent, electrification 80% of it, coverage 120% of it capped at 100 (reached from 17.5 million clients on) |
| AreStatistiquesAvancees.TronquerMeaning | app/are/dashboard/routes.py:376 | `int()` keeps the integer part, toward 0 |
| AreStatistiquesAvancees.ClientsEstimesPremier | app/are/dashboard/routes.py:383 | the clients an estimate uses are those of that year's own client entry |
| AreStatistiquesAvancees.CalculerStatistiquesNationalesAvancees | app/are/dashboard/routes.py:188-408 | the end year defaults to the current one; every series covers exactly the range, year by year, and the domestic map exactly its years |
| AreStatistiquesAvancees.TauxMeaning | app/are/dashboard/routes.py:366-397 | a year with a national record takes its rates from it; one without takes the estimate from its own clients |
| AdminUtils.VariationMeaning | app/admin/utils.py:89-98 | under two months, or a month before last at 0, gives 0; otherwise the variation is the change over the month before last in percent, positive exactly when production rose and negative exactly when it fell |
| AdminUtils.VariationAsWrittenContreExemple | app/admin/utils.py:81-93 | December 2024 at 100 and January 2025 at 50: ordering by month number shows +100%, calendar order −50% |
| AdminUtils.ChronologiqueTotal | app/admin/utils.py:87 | year then month is a total preorder |
| AdminUtils.VariationProductionMeaning | app/admin/utils.py:81-93 | in calendar order the rows are a sorted permutation, the last is the latest month and the one before it the latest of the others |
| AdminUtils.TauxRemplissageMeaning | app/admin/utils.py:111-114 | without an active plant the filling rate is 0; otherwise it is reports over plants in percent, non-negative, at most 100 when reports do not outnumber plants |
| AdminUtils.Retenus | app/admin/utils.py:196-208 | exactly the reports that match every filter given; a filter absent or 0 filters nothing |
| AdminUtils.Facteurs | app/admin/utils.py:217 | every load factor listed is one of the reports' and every non-NULL one is listed |
| AdminUtils.MinSeq | app/admin/utils.py:220 | `min()` is one of the values and no value is smaller |
| AdminUtils.MaxSeq | app/admin/utils.py:221 | `max()` is one of the values and no value is larger |
| AdminUtils.StatsFacteursMeaning | app/admin/utils.py:217-225 | no factor gives 0, 0, 0; otherwise the mean lies between the minimum and maximum, each one of the factors |
| AdminUtils.MoyenneMeaning | app/admin/utils.py:214 | the mean times the count gives back the total, non-negative for a non-negative total |
| AdminUtils.MoyenneEncadree | app/admin/utils.py:219 | a sum between `n * lo` and `n * hi` has its mean between `lo` and `hi` |
| AdminUtils.SommeEncadree | app/admin/utils.py:219 | values within bounds sum within the count times those bounds |
| AdminUtils.IndexNom | app/admin/utils.py:237 | a plant found carries the name; none found means no entry has it |
| AdminUtils.CumulerProductions | app/admin/utils.py:234-239 | the accumulation loop builds the per-plant dictionary |
| AdminUtils.IndexAccord | app/admin/utils.py:237 | looking a name up in the dictionary finds the same position as in the reports grouped by plant |
| AdminUtils.SommeSnoc | app/admin/utils.py:239 | adding a report adds its energy, NULL as 0 |
| AdminUtils.CumulerNouveau | app/admin/utils.py:237-239 | a new plant's entry is appended with the report's energy |
| AdminUtils.CumulerConnu | app/admin/utils.py:239 | a known plant's entry gains the report's energy, nothing else changes |
| AdminUtils.CumulerAccord | app/admin/utils.py:235-239 | adding a report to its plant's group adds its energy to that plant's entry |
| AdminUtils.ProductionsGroupees | app/admin/utils.py:234-239 | the dictionary is the reports grouped by plant, each group summed |
| AdminUtils.ProductionsParCentraleTaille | app/admin/utils.py:234-239 | one entry per distinct plant name |
| AdminUtils.ProductionsParCentraleMeaning | app/admin/utils.py:234-239 | the k-th entry is the k-th plant in order of first appearance with the energy sum of exactly its reports |
| AdminUtils.Top5 | app/admin/utils.py:241-242 | five entries, or all when there are fewer |
| AdminUtils.Top5Meaning | app/admin/utils.py:241-243 | at most five entries, from the dictionary, in descending production, and none left out produced more than one kept |
| AdminUtils.RepartitionStatuts | app/admin/utils.py:228-231 | the loop counts the reports per status |
| AdminUtils.StatutsMeaning | app/admin/utils.py:228-231 | the counts add up to the number of reports and the keys are exactly the statuses that occur |
| AdminUtils.GenererAnalyse | app/admin/utils.py:188-269 | no matching report gives the empty analysis; otherwise count, energy total and mean, load-factor statistics, status counts, top five plants, incident and maintenance totals and incident rate of exactly the matching reports |
| AdminUtils.HistoriqueSauvegardes | app/admin/utils.py:345-368 | no directory gives nothing; otherwise the backup entries, newest first |
| AdminUtils.EntreesMeaning | app/admin/utils.py:353-364 | the entries are exactly those of the 'backup_' files |
| AdminUtils.HistoriqueMeaning | app/admin/utils.py:353-367 | exactly the 'backup_' files, newest first, each with its size in MiB and the type its name says, 'complete' before 'database' |

## Left out

**Numbers and time**
- Rounding: `round()`, `toFixed` for display, and format strings. Ratios are exact `real`s, so every figure is the unrounded value.
- Floating-point behaviour: double precision, overflow to Infinity and negative zero. JavaScript numbers keep NaN and the infinities.
- The JavaScript text of a non-integer number, in CSV, titles and card values. Only integers, the special values and `toFixed` output are rendered.
- The clock: `datetime.now()`, `datetime.utcnow()` and `date.today()` are parameters. Dates are day numbers and datetimes are seconds. Time zones are not modelled.
- Unicode case folding: `lower()` and `ilike` fold ASCII letters only.

**Database behaviour**
- Queries are folds over in-memory row sequences. The row order of `GROUP BY` results, and of queries without `order_by`, is table order.
- Pagination in `api_filters` and in the list pages.
- Sessions, commits and rollbacks. A handler that catches an exception and returns `{}`, `[]`, `None` or `False` is modelled by that result; logging is omitted.
- Each statistics step commits as it saves, so a failure keeps the deletion and the rows saved before it. The model states this; it does not model the session itself.
- ORM type coercion is modelled as SQLAlchemy does it: an Enum column stores and compares the member's name, so a lower-case value text never matches; assigning an integer to a relationship raises `AttributeError`. The members below model the corrected code instead, and the as-written behaviour is in "## Findings":
- CollecteRoutes.SubmitStores: corrected to store the submitter in `soumis_par_user_id` and the status as a `StatutCollecte` member.
- CollecteRoutes.CollecteTable.Soumettre: the same correction, with the existing-collection test as a parameter.
- CollecteRoutes.CollecteTable.SoumettreCollecte: the same correction, with the intended draft test.
- CollecteRoutes.CollecteTable.ApiValider: corrected to store the status member and `valide_par_user_id`.
- CollecteRoutes.ValiderEffect: states the corrected decision, as ApiValider.
- AreReel.CollectesDe: corrected to compare the status with `StatutCollecte.VALIDE`.
- AreReel.CalculerClienteleReelle: uses the corrected query.
- AreReel.CalculerToutesStatistiquesReelles: uses the corrected steps.

- The `onupdate` stamp of `date_modification` (app/models/base.py:14) is modelled for the base record, notifications and messages, whose modification date the cleanups read. The other row types here carry no modification-date field, so for them "nothing else changes" speaks of the modelled columns only.
- BaseModel.BaseRecord.Update: the attribute set is the record's columns. Python's `hasattr` (app/models/base.py:31) also accepts relationships, methods and class attributes; `update` would overwrite those too, which is not modelled.

- AuthForms.RegisteredAccount: promises a reachable operator only for an operator-role account submitted with a non-blank operator. With a blank or missing one, `Optional()` stops validation before `validate_operateur_id` runs; BlankOperateurAccepted states that case.
- AuthForms.OperateurIdErrors: the WTForms release is not pinned by the repository. Both `SelectField.pre_validate` behaviours, releases 2 and 3, are modelled as a parameter. The other registration fields' validators (`DataRequired`, `Length`, `Email`, `EqualTo`) are not modelled.
- NotificationRoutes.StoredParent: only a posted parent that is an integer's plain decimal text is stored as that integer. SQLite also converts other integer spellings ("007", "+5") and keeps any other text ("abc") as text in the INTEGER column; the model stores no parent for all of these crafted hidden values.
- NotificationServices.UtiliserTemplateAsWritten: when an active template's code is the user id's decimal text, the source saves the notification it builds, with the code text in the INTEGER `user_id` column. The model returns that notification with its text owner instead of appending it to `notifications`, whose owners are integer ids.
- NotificationsModel.Field: a replacement field holding ':', '!', '.' or '[' (a format spec, a conversion, an attribute or an index) gives the error "unsupported field". Python's `str.format` would apply the spec or conversion, or look the attribute or item up. The default templates use bare names only.

**Browser, system and external code**
- Flask routing, templates, flash, redirect, abort, CSRF and the login-manager wiring. Only the decision each handler takes is modelled.
- Chart.js and canvas drawing, DOM animation, scrolling, confirm dialogs, modals, toasts, downloads, full-screen handling and `setTimeout` delays. These are browser effects.
- The answer to a confirm dialog, and the response of a fetch call, are parameters.
- AreDashboardScript.DashboardAre.RefreshAllData: the async `refreshAllData` (app/static/js/are/dashboard.js:279-303) awaits three times, and the model runs it as one uninterrupted step. An interval tick, a manual refresh or `toggleAutoRefresh` can run at each await. Two refreshes can then interleave their updates, and the first to finish hides the shared loading indicator while the other is still pending. Tick and ToggleAutoRefresh inherit the same assumption that a refresh runs alone.
- The `new Function` tooltip callbacks built from chart configuration data (app/static/js/graphiques.js:40-44). This runs code taken from data.
- Graphiques.ChartRegistry.InitCharts: a chart id `__proto__` (an element `__proto__-config`) would replace the prototype of `window.chartInstances` instead of adding an entry; the model registers it as an ordinary id.
- `mettreAJourTitreTransformateur` and the export helpers of app/static/js/transformateurs.js. They only set display text from the validated fields.
- Password hashing with bcrypt and werkzeug is a foreign call. Only the "no stored hash gives False" guard is modelled.
- Backups, zip creation, config JSON, CSV/Excel/PPTX exports and psutil:
  - `create_backup`, `cleanup_old_backups` and `get_system_info` are file-system and OS calls;
  - `get_backup_history` is modelled over a directory listing given as a parameter.

**Operations not modelled**
- `get_dashboard_stats`: its plain counts and sums are single aggregates. Only the variation and the filling rate are modelled.
- `get_production_analytics`: three `GROUP BY` sums that the model would only restate.
- The infrastructure counts of `_calculer_statistiques_nationales_avancees` (app/are/dashboard/routes.py:347-354). They are six row counts.
- `soumettre_rapport` (app/workflow/services.py:119-170) takes the validator that `assigner_validateur(1, type_rapport)` chooses as a parameter; `valider_rapport` (line 213) receives the validator's id from its caller.
- `get_historique_rapport` and most `to_dict` methods only serialise columns. `BaseModel.to_dict` and the hydro group's fallbacks are modelled.
- The workflow JSON `etapes` column is not modelled. Neither are the IP address, user agent and JSON snapshots of the history table.
- Randomly simulated series are nondeterministic:
  - `generer_donnees_charge_poste_distribution` and `generer_donnees_performance_feeder` in app/distribution/routes.py;
  - `generer_donnees_charge_poste` in app/transport/routes.py.
- app/production_hydro/routes.py and app/production_thermique/routes.py are dead modules that no blueprint imports.
- The route files whose remaining logic repeats what is modelled here, or guards a single database write:
  - solar production, workflow, hydro reports, equipment and plants;
  - thermal plants, authentication, operators, administration and contacts.
- Declarative forms and the ORM-only models. Their one shared method, `get_periode_str`, is modelled once for the distribution report.

**Sort ties**
- AdminUtils.Top5Meaning: does not state the order of entries with equal production. Python's stable sort keeps first-appearance order there.
- DistributionRoutes.TopClientsMeaning: does not state the order of substations with equal client counts, for the same reason.
- WorkflowServices.EnAttenteQueues: states a sorted permutation but not the order of ties.

## Findings

| source | as written | input that shows it | evidently intended | confidence | as-written member | corrected member |
|---|---|---|---|---|---|---|
| app/collecte/forms.py:273, app/collecte/routes.py:123 | the collection's `statut`, a plain `Enum` member, is compared with the string 'brouillon'. The comparison is always unequal, so any existing collection blocks the month | an existing draft for the same operator and month: the form refuses it, and the route never fills the draft in again | only a collection that is not a draft blocks; an existing draft is updated in place | not executed | CollecteForms.BlocksAsWrittenRefusesDrafts, CollecteForms.ValidateAsWrittenRefusesDraft, CollecteRoutes.SubmitAsWrittenNeverUpdates, CollecteRoutes.CollecteTable.SoumettreAsWritten | CollecteForms.ValidateAccepts (with `Blocks`), CollecteRoutes.CollecteTable.SoumettreCollecte |
| app/collecte/routes.py:86,103 | `role_required('operateur', 'admin_operateur')` lists 'operateur', which is not a role; the operator user's role is 'utilisateur_operateur' | an active user with role 'utilisateur_operateur' gets 403 on the collection pages | operator users may submit and list their collections | not executed | CollecteRoutes.CollecteRolesAsWrittenRefuseUsers (first ensures) | CollecteRoutes.CollecteRolesAsWrittenRefuseUsers (second ensures, over the intended role list) |
| app/notifications/services.py:330-332 | `utiliser_template(code, user_id, …)` calls `creer_notification_template(code, user_id, …)` (line 50), whose parameters are `(user_id, code_template, …)` | any template code and a user whose id is not the code of an active template: the template is looked up by the user id and not found, so the call gives None; when an active template's code is the user id's decimal text ("5" for user 5, a code the admin form lets through), that template is used and its notification is made out to the code text | the template's notification is created for the user | not executed | NotificationServices.UtiliserTemplateAsWritten, NotificationServices.ArgumentSwap, NotificationServices.NumericCodeFound | NotificationServices.UtiliserTemplate |
| app/workflow/services.py:149-157 | a new `ValidationRapport` is created without a `statut`. The column default applies only at INSERT, so `soumettre()` sees None and refuses | the first submission of a report that has no validation yet returns None | the new validation starts as BROUILLON and is submitted | not executed | WorkflowServices.SoumettreRapportAsWritten | WorkflowServices.SoumettreRapport |
| app/distribution/routes.py:925 | the month keys 'MM/YYYY' are sorted as text | reports of 12/2024 and 01/2025: the series lists 01/2025 first | calendar order | not executed | DistributionRoutes.OrdreTexteNonChronologique, DistributionRoutes.GenererPerformanceReseauAsWritten | DistributionRoutes.OrdreChronologiqueMeaning, DistributionRoutes.GenererPerformanceReseau |
| app/are/services.py:238,247,250 | the overdue-report alert reads `operateur.nom_commercial`, which `Operateur` does not define | any active operator without a report for the last month raises AttributeError; the KPI alerts already committed stay | the alert names the operator by `nom` | not executed | AreServices.VerifierRetardsAsWritten | AreServices.VerifierRetards, AreServices.RetardsCouverts |
| app/are/services_reel.py:52-55, 88-91, 124-127 | each source's production query reads `operateur_id`, `production_totale_kwh` and `date_debut` on the report class, which has none of them | any year with an active plant: the first group raises before its row is saved, so the step fails and the pipeline stops there | each group's row is saved with its derated capacity, its production being the reports' `energie_produite` (MWh) converted to GWh | not executed | AreReel.CalculerCapacitesReellesAsWritten, AreReel.CapacitesReellesEchouent | AreReel.CalculerCapacitesReelles, AreReel.LignesReellesMeaning |
| app/are/services_reel.py:267-275 | the per-source totals compare the `type_source` Enum member with the strings 'production_hydro', 'production_thermique' and 'production_solaire' | one hydro group of 5 MW: the national hydro capacity stays 0 | each source's rows feed its own total | not executed | AreReel.AccumulerCapacitesAsWritten, AreReel.TotauxAsWrittenMeaning, AreReel.PartHydroPerdue | AreStatistiques.AccumulerCapacites, AreStatistiques.PartDuGroupe |
| app/admin/utils.py:80-98 | the last six months are grouped and ordered by month number alone | December 2024 at 100 MWh and January 2025 at 50 MWh: +100% shown | the latest month against the one before it: −50% | not executed | AdminUtils.VariationAsWrittenContreExemple | AdminUtils.VariationProductionMeaning |
| app/collecte/routes.py:132-137 | a new collection is built with `soumis_par=current_user.id`, but `soumis_par` is the `User` relationship (app/models/collecte_donnees.py:83); the id column is `soumis_par_user_id` | a valid first submission for a month without a collection: the constructor raises `AttributeError` and nothing is stored | the new row stores the submitter's id in `soumis_par_user_id` | not executed | CollecteRoutes.SubmitAsWrittenNeverStores, CollecteRoutes.CollecteTable.SoumettreAsWritten | CollecteRoutes.SubmitStores, CollecteRoutes.CollecteTable.SoumettreCollecte |
| app/collecte/routes.py:381-383, 386-388 | the decision assigns the text 'valide' or 'rejete' to the Enum column and `current_user.id` to the `valide_par` relationship | `?action=valider` on any existing collection: the relationship assignment raises `AttributeError` and no decision is stored | the status member and `valide_par_user_id` are stored | not executed | CollecteRoutes.CollecteTable.ApiValiderAsWritten, CollecteRoutes.ValiderAsWrittenNeverDecides | CollecteRoutes.CollecteTable.ApiValider, CollecteRoutes.ValiderEffect |
| app/are/services_reel.py:170-174 | the validated collections are selected with `statut == 'valide'`; the Enum column stores the member name 'VALIDE', so no row matches | a year whose every collection is validated: the step deletes the year's client records and saves none | the collections with status `StatutCollecte.VALIDE` are aggregated | not executed | AreReel.CollectesDeAsWrittenVides, AreReel.CalculerClienteleReelleAsWritten | AreReel.CollectesDe, AreReel.CalculerClienteleReelle, AreReel.ClienteleAnneeMeaning |
| app/production_hydro/routes_api.py:49, 80 | the equipment endpoint loops over `centrale.groupes_production` and `centrale.transformateurs`; those relationships are defined on `RapportHydro` (app/models/production_hydro.py:147-148), not on `CentraleHydro` | any existing plant the user may see: the first loop raises `AttributeError`, a 500 | the plant's generating groups and transformers are listed for the report form | not executed | ProductionHydroApi.ApiEquipementsAsWritten, ProductionHydroApi.ApiEquipementsAsWrittenFails | ProductionHydroApi.ApiEquipements, ProductionHydroApi.ApiEquipementsMeaning |
| app/transport/routes.py:715 | the creation handler sets `form.poste_id.choices`, but `RapportTransportForm` (app/transport/forms.py:284-366) declares only `ligne_id` | any GET or POST of the new-report page: `AttributeError` before the form is read | the substation and line choices are offered and the guard at 724-731 decides. The corrected member models that guard alone: `ligne_id`'s `DataRequired` (app/transport/forms.py:288) refuses the line choice 0 before the guard runs | not executed | TransportRoutes.NouveauRapportAsWritten, TransportRoutes.NouveauRapportAsWrittenFails | TransportRoutes.NouveauRapport, TransportRoutes.NouveauRapportMeaning |
