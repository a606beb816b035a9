# LuminaCare clinic front end — a Dafny model

This project models the behaviour of the LuminaCare clinic-management front end: its screens,
forms and hook. It covers the logic behind the interface and leaves out the markup. Each part
is modelled in the same form as the code it comes from.

**Public booking wizard**
- The `useAgendamento` hook becomes a pure state record, `UseAgendamento.HookState`. Each
  handler and effect is a transition function on it.
- A class, `UseAgendamento.Agendamento`, has one method per handler. Each method ensures that
  the new state is that transition applied to the old state.
- `PublicAgendamentoPage` wires the hook to the three step views: the professional list, the
  date-and-time selector and the personal-data form. It proves an invariant kept by every
  event the rendered views offer.
- `DateTimeSelector` covers which days are enabled, slot clicks, which slot is highlighted and
  when Continue is enabled.
- `ProfissionalSelector` filters the professional list by specialty.

**Forms**
- The zod schemas become data, checked by one interpreter in module `Schema`:
  - booking, new patient, new lead, new appointment.
- Each schema has a lemma that spells out which form values it accepts.
- A shared class, `FormSubmission.SavingForm`, models the "validate, set submitting, wait,
  clear submitting" save flow of the new-patient and new-lead pages.

**List screens**
- patients and procedures search;
- procedure status colours and counts;
- the weekly agenda grid and its week navigation;
- the side menu's active item and expanded group.

**Marketing**
- the leads Kanban grouping and drag-and-drop;
- the leads page's status update;
- recipient selection: tabs, search, toggling, select-all and continue;
- the marketing connection flags;
- the WhatsApp panel's connection state machine.

**What is a parameter**
- The clock, `Math.random()` draws, generated ids and object URLs are inputs.
- Email validity (`z.string().email()`) is an uninterpreted predicate `isEmail`.
- Each `setTimeout` or awaited delay is a separate completion event. A counter tracks the
  pending ones, so the model covers every interleaving the delays allow.
- Days are whole days counted from 1970-01-01 in UTC. Instants are milliseconds.

**What the hook does not do**
- The hook never clears the slot list when a selection changes
  (`UseAgendamento.SlotEffectStartsFetch`).
- It never discards a slot fetch that completes after the selection has moved on.
- It does not bound the step counter: `UseAgendamento.StepsInverse` shows the step moving
  freely past 3 and below 1.
- The page's views never offer the events that would leave steps 1..3
  (`PublicAgendamentoPage.StepInv`).

## Model

| member | source | states |
|---|---|---|
| Strings.Lower | src/pages/PacientesPage.tsx:44-46 | `toLowerCase` keeps the length of the string |
| Strings.LowerIdempotent | src/pages/PacientesPage.tsx:44-46 | lowercasing a lowercased string changes nothing |
| Strings.Includes | src/pages/PacientesPage.tsx:44-46 | `includes` holds exactly when the query occurs at some position of the string |
| Strings.IncludesEmpty | src/pages/ProcedimentosPage.tsx:55-59 | every string includes the empty query |
| Strings.ContainsIgnoringCaseInvariant | src/pages/PacientesPage.tsx:44-46 | two queries that lowercase alike match the same strings |
| Strings.ContainsEmpty | src/pages/PacientesPage.tsx:43-47 | the empty query matches every string, ignoring case |
| Strings.DecimalString | src/components/agendamentos/AgendaSemanal.tsx:37 | `toString` of a natural number is a non-empty string of decimal digits |
| Strings.PadStart | src/components/agendamentos/AgendaSemanal.tsx:37 | `padStart` reaches the requested width, or keeps the length if it is longer, and ends with the original string |
| Calendar.Weekday | src/components/agendamento/DateTimeSelector.tsx:62-66 | the weekday of a day is in 0..6, Sunday being 0 |
| Calendar.DayOfBounds | src/components/agendamento/DateTimeSelector.tsx:62-66 | an instant lies between the midnight of its day and the midnight of the next day |
| Lists.IsSubsequenceReflexive | src/pages/PacientesPage.tsx:43-47 | a list is a subsequence of itself, as an unfiltered list is |
| Lists.Filter | src/pages/PacientesPage.tsx:43-47 | `Array.filter` keeps exactly the elements that pass, each as many times as the input holds it, in their original order, and never grows the list |
| Lists.FilterAppend | src/pages/marketing/SelecionarDestinatariosPage.tsx:70-76 | filtering a concatenation is concatenating the filtered parts |
| Lists.FilterAll | src/pages/marketing/SelecionarDestinatariosPage.tsx:57-63 | a filter that every element passes returns the list unchanged |
| Lists.FilterCongruent | src/pages/marketing/SelecionarDestinatariosPage.tsx:83 | two predicates that agree on the list's elements filter it alike |
| Lists.FilterNoDup | src/pages/marketing/SelecionarDestinatariosPage.tsx:73 | filtering a duplicate-free list leaves it duplicate-free |
| Lists.Dedup | src/pages/marketing/SelecionarDestinatariosPage.tsx:85 | `[...new Set(xs)]` holds the same elements without duplicates, and is the list itself when it had none |
| Lists.DedupKeepsPrefix | src/pages/marketing/SelecionarDestinatariosPage.tsx:85 | deduplicating a duplicate-free list followed by more ids keeps that list as a prefix, in insertion order |
| Lists.Count | src/pages/ProcedimentosPage.tsx:114 | the number of occurrences is at most the length, and is zero exactly when the value does not occur |
| Schema.Errors | src/types/agendamento.ts:5-32 | zod reports one error per failing field rule, at most one per rule, and none exactly when every rule holds |
| Schema.AllRules | src/types/agendamento.ts:5-32 | an object schema accepts a value exactly when each of its field rules does |
| Schema.ValidAppend | src/types/agendamento.ts:5-32 | an object schema split into two parts accepts a value exactly when both parts do |
| Schema.OptionalStringsValid | src/pages/NovoPacientePage.tsx:30-42 | a schema of optional strings accepts exactly the values whose fields are absent or text |
| Schema.WithDefaults | src/pages/marketing/NovoLeadPage.tsx:37 | `.default(...)` adds the default for a missing key and keeps every value that is present |
| Schema.Parse | src/types/agendamento.ts:5-32 | parsing succeeds exactly when the values are valid, and otherwise returns the non-empty list of errors |
| BookingTypes.BookingSchemaMeaning | src/types/agendamento.ts:5-32 | the booking schema accepts exactly: a name of 3+ characters, a valid email, a phone of 10+ characters, a date, hour, specialty and professional, a modality of presencial or online, and optional insurer and notes |
| BookingTypes.ModalidadeAccepted | src/types/agendamento.ts:27-29 | the modality enum accepts exactly "presencial" and "online", and every modality value is accepted |
| DateTimeSelector.DayEnabledIff | src/components/agendamento/DateTimeSelector.tsx:62-66 | a calendar day is enabled exactly when it is Monday to Saturday, not before now and not after the three-month horizon |
| DateTimeSelector.SaturdayEnabled | src/components/agendamento/DateTimeSelector.tsx:62-66 | Saturdays within the range are enabled; only Sundays are excluded |
| DateTimeSelector.TodayDisabled | src/components/agendamento/DateTimeSelector.tsx:62-66 | today is disabled once its midnight has passed, because the comparison is with the current instant; tomorrow is enabled unless it is a Sunday or past the horizon |
| DateTimeSelector.SlotClick | src/components/agendamento/DateTimeSelector.tsx:103-108 | clicking a slot selects its hour exactly when the slot is available |
| DateTimeSelector.HighlightUnique | src/components/agendamento/DateTimeSelector.tsx:105 | among slots with distinct hours, at most one is highlighted, and it is the selected hour |
| DateTimeSelector.SlotAreaOf | src/components/agendamento/DateTimeSelector.tsx:93-121 | the slot area shows once both a date and a modality are chosen; it is a grid exactly when slots are loaded, and otherwise the loading message |
| ProfissionalSelector.FilterFor | src/components/agendamento/ProfissionalSelector.tsx:35 | choosing "todas" clears the specialty filter, and any other value becomes the filter |
| ProfissionalSelector.Shown | src/components/agendamento/ProfissionalSelector.tsx:23-25 | with no filter (or an empty one) every professional is shown; otherwise exactly those of that specialty, in order |
| ProfissionalSelector.DirectoryBySpecialty | src/hooks/useAgendamento.ts:28-76 | on the loaded directory, Psiquiatria shows only Rochelle Marquetto, Cardiologia only Ana Santos, Neurologia only Carlos Silva, an absent specialty nothing, and "todas" everyone |
| ProfissionalSelector.Selector.constructor | src/components/agendamento/ProfissionalSelector.tsx:21 | the selector starts with no specialty filter |
| ProfissionalSelector.Selector.Cards | src/components/agendamento/ProfissionalSelector.tsx:53-59 | the cards shown are a subsequence of the professionals passed in |
| ProfissionalSelector.Selector.OnValueChange | src/components/agendamento/ProfissionalSelector.tsx:34-35 | the select sets the filter, and "todas" makes every professional show again |
| UseAgendamento.Find | src/hooks/useAgendamento.ts:118 | `find` returns nothing exactly when no professional has the id, and otherwise the first one that does |
| UseAgendamento.SelectProfissionalOutcome | src/hooks/useAgendamento.ts:117-125 | an unknown id changes nothing; a known one selects that professional, writes its id and specialty into the form and moves to step 2, leaving everything else alone |
| UseAgendamento.DateSelectOutcome | src/hooks/useAgendamento.ts:127-132 | a cleared date changes nothing; a date becomes the selected date and the form's "data", with every other form key kept |
| UseAgendamento.ModalidadeSelectOutcome | src/hooks/useAgendamento.ts:134-137 | the modality is stored in state and in the form by name, leaving the slots and the step alone |
| UseAgendamento.HorarioSelectOutcome | src/hooks/useAgendamento.ts:139-141 | the hour is written into the form and nothing else changes; the handler itself accepts even the unavailable "12:00" |
| UseAgendamento.StepsInverse | src/hooks/useAgendamento.ts:143-149 | next and previous move the step by one and undo each other, with no bound: 3 goes to 4 and 1 to 0 |
| UseAgendamento.SlotEffectStartsFetch | src/hooks/useAgendamento.ts:79-83 | a fetch starts only when date, professional and modality are all set, starts whenever they are set and have changed, and the effect never touches the slot list |
| UseAgendamento.CatalogueShape | src/hooks/useAgendamento.ts:93-104 | the fetched catalogue lists ten hourly slots from 08:00 to 17:00, and only 12:00 and 15:00 are unavailable |
| UseAgendamento.SubmitOutcome | src/hooks/useAgendamento.ts:151-177 | when the submission settles, submitting is cleared; success resets the form and shows success, failure keeps both; the step and slots are untouched |
| UseAgendamento.ResetOutcome | src/hooks/useAgendamento.ts:179-186 | "new booking" clears success, returns to step 1, clears every selection and resets the form, but keeps the slot list |
| UseAgendamento.Agendamento.constructor | src/hooks/useAgendamento.ts:9-25 | the hook starts on step 1 with nothing selected, not submitting, no success and no slots |
| UseAgendamento.Agendamento.LoadInitialData | src/hooks/useAgendamento.ts:28-76 | the mount effect loads the specialties, insurers and professional directory |
| UseAgendamento.Agendamento.HandleProfissionalSelect | src/hooks/useAgendamento.ts:117-125 | the new state is the professional-selection transition of the old one |
| UseAgendamento.Agendamento.HandleDateSelect | src/hooks/useAgendamento.ts:127-132 | the new state is the date-selection transition of the old one |
| UseAgendamento.Agendamento.HandleModalidadeSelect | src/hooks/useAgendamento.ts:134-137 | the new state is the modality-selection transition of the old one |
| UseAgendamento.Agendamento.HandleHorarioSelect | src/hooks/useAgendamento.ts:139-141 | the new state is the hour-selection transition of the old one |
| UseAgendamento.Agendamento.GoToNextStep | src/hooks/useAgendamento.ts:143-145 | the step goes up by one and nothing else changes |
| UseAgendamento.Agendamento.GoToPrevStep | src/hooks/useAgendamento.ts:147-149 | the step goes down by one and nothing else changes |
| UseAgendamento.Agendamento.RunSlotEffect | src/hooks/useAgendamento.ts:79-83 | the effect starts a fetch when its dependencies are complete and changed, and records them |
| UseAgendamento.Agendamento.FetchHorariosDisponiveisResolves | src/hooks/useAgendamento.ts:85-115 | a pending fetch settles by storing the slot catalogue |
| UseAgendamento.Agendamento.HandleSubmit | src/hooks/useAgendamento.ts:151-159 | submitting is set and one submission is in flight |
| UseAgendamento.Agendamento.HandleSubmitResolves | src/hooks/useAgendamento.ts:159-177 | the pending submission settles as the settle transition says |
| UseAgendamento.Agendamento.ResetForm | src/hooks/useAgendamento.ts:179-186 | the new state is the reset transition of the old one |
| PublicAgendamentoPage.StartInv | src/pages/PublicAgendamentoPage.tsx:65-84 | right after mounting, the invariant holds and the professional step is shown |
| PublicAgendamentoPage.SlotEffectInv | src/hooks/useAgendamento.ts:79-83 | running the slot effect restores the full invariant from its core |
| PublicAgendamentoPage.InvCoreCounters | src/hooks/useAgendamento.ts:79-83 | the invariant's core does not depend on the effect's recorded dependencies or on the count of pending fetches |
| PublicAgendamentoPage.ChooseProfessionalInv | src/pages/PublicAgendamentoPage.tsx:77-84 | choosing a card on step 1 keeps the invariant |
| PublicAgendamentoPage.ChooseDayOrModalityInv | src/pages/PublicAgendamentoPage.tsx:87-103 | choosing a day or a modality on step 2 keeps the invariant |
| PublicAgendamentoPage.ClickSlotInv | src/pages/PublicAgendamentoPage.tsx:96-99 | clicking an available slot stores its hour, moves to step 3 and keeps the invariant |
| PublicAgendamentoPage.ContinueOrBackInv | src/components/agendamento/DateTimeSelector.tsx:129-136 | Continue, enabled only with date, modality and hour, and Back on steps 2 and 3 keep the invariant |
| PublicAgendamentoPage.PersonalFieldsOutsideWizard | src/components/agendamento/PersonalDataForm.tsx:56-152 | the personal-data inputs and the insurer select write no field the wizard owns |
| PublicAgendamentoPage.FormWriteOutsideWizard | src/components/agendamento/PersonalDataForm.tsx:56-152 | writing text into a field the wizard does not own keeps the invariant |
| PublicAgendamentoPage.EnterFieldInv | src/pages/PublicAgendamentoPage.tsx:106-117 | typing into the personal-data form keeps the invariant |
| PublicAgendamentoPage.ConfirmInv | src/components/agendamento/PersonalDataForm.tsx:152 | confirming while not submitting keeps the invariant |
| PublicAgendamentoPage.NewBookingInv | src/pages/PublicAgendamentoPage.tsx:65-66 | "new booking" from the success view keeps the invariant |
| PublicAgendamentoPage.TimersInv | src/hooks/useAgendamento.ts:85-177 | a slot fetch or a submission settling keeps the invariant |
| PublicAgendamentoPage.StepInv | src/pages/PublicAgendamentoPage.tsx:65-117 | every event the page can receive keeps the invariant: step within 1..3, at most one submission in flight, and the slots either empty or the catalogue |
| PublicAgendamentoPage.ApplyInv | src/pages/PublicAgendamentoPage.tsx:65-117 | every event keeps the invariant's core before the slot effect runs |
| PublicAgendamentoPage.WizardEventInv | src/pages/PublicAgendamentoPage.tsx:76-103 | the intents of steps 1 and 2 (a card, a day, a modality, a slot, Continue, Back) keep the invariant's core |
| PublicAgendamentoPage.FormEventInv | src/pages/PublicAgendamentoPage.tsx:65-117 | the personal-data inputs, Confirm, a new booking and the two timers keep the invariant's core |
| PublicAgendamentoPage.RunInv | src/pages/PublicAgendamentoPage.tsx:65-117 | the invariant holds after any sequence of events |
| PublicAgendamentoPage.Reachable | src/pages/PublicAgendamentoPage.tsx:70-74 | every reachable state shows one of the three steps, or the success view, and has at most one submission in flight |
| PublicAgendamentoPage.ConfirmValidity | src/types/agendamento.ts:5-32 | on the personal-data step the booking is valid exactly when name, email and phone are |
| PublicAgendamentoPage.RunTwo | src/pages/PublicAgendamentoPage.tsx:65-117 | running two events is applying one step after the other |
| PublicAgendamentoPage.DoubleConfirm | src/components/agendamento/PersonalDataForm.tsx:152 | a double click on confirm submits once, because the button is disabled while submitting |
| PublicAgendamentoPage.ChooseAnaSantos | src/hooks/useAgendamento.ts:117-125 | choosing professional "3" moves to step 2 with Ana Santos selected and Cardiologia in the form |
| PublicAgendamentoPage.SlotClicks | src/components/agendamento/DateTimeSelector.tsx:103-108 | on the catalogue, clicking the unavailable 12:00 does nothing, and clicking 09:00 stores it and moves to step 3 |
| FormSubmission.SavingForm.constructor | src/pages/NovoPacientePage.tsx:50-74 | the form starts with its defaults, not submitting, nothing saved |
| FormSubmission.SavingForm.SetValue | src/pages/NovoPacientePage.tsx:53-74 | editing a field writes that one value and nothing else |
| FormSubmission.SavingForm.ClickSave | src/pages/NovoPacientePage.tsx:76-91 | while saving, the click does nothing; otherwise invalid values report their errors and change nothing, and valid ones start one save with the parsed record |
| FormSubmission.SavingForm.SaveTimerFires | src/pages/NovoPacientePage.tsx:80-90 | the save delay ends by clearing submitting, keeping the values |
| NovoPacientePage.PacienteSchemaMeaning | src/pages/NovoPacientePage.tsx:25-43 | the patient schema accepts exactly: a name of 3+ characters, a valid email, a phone of 10+ characters, a birth date string, and every other field absent or text |
| NovoPacientePage.RequiredMeaning | src/pages/NovoPacientePage.tsx:27-30 | the four required fields accept exactly a name of 3+ characters, a valid email, a phone of 10+ characters and a birth date string |
| NovoPacientePage.DefaultsEmpty | src/pages/NovoPacientePage.tsx:53-70 | every default value is the empty string |
| NovoPacientePage.DefaultsRejected | src/pages/NovoPacientePage.tsx:53-74 | the untouched form is rejected |
| NovoPacientePage.DefaultsNeedThreeFields | src/pages/NovoPacientePage.tsx:25-74 | starting from the defaults, filling name, email and phone is accepted exactly when they meet their minimums |
| NovoPacientePage.NovoPaciente.constructor | src/pages/NovoPacientePage.tsx:50-74 | the page opens on the personal-data tab with the default values |
| NovoPacientePage.NovoPaciente.SetActiveTab | src/pages/NovoPacientePage.tsx:121 | the tab control and the next/back buttons set the active tab |
| NovoLeadPage.LeadSchemaMeaning | src/pages/marketing/NovoLeadPage.tsx:32-41 | the lead schema accepts exactly: a name of 3+ characters, an email that is valid if present, a phone of 10+ characters, an origin, potential low, medium or high, and the rest absent or text |
| NovoLeadPage.DefaultEmailChecked | src/pages/marketing/NovoLeadPage.tsx:50-61 | because the default email is "", not absent, the untouched email field is checked as an email |
| NovoLeadPage.EmailOptional | src/pages/marketing/NovoLeadPage.tsx:34 | with the email absent, name and phone decide validity |
| NovoLeadPage.StatusDefaultsToNovo | src/pages/marketing/NovoLeadPage.tsx:37 | a valid lead without a status parses with status "Novo" |
| NovoLeadPage.LeadKeysUnique | src/pages/marketing/NovoLeadPage.tsx:32-41 | the lead schema names each field once |
| NovoLeadPage.NovoLead.constructor | src/pages/marketing/NovoLeadPage.tsx:48-62 | the page opens with the lead defaults, not submitting |
| NovoAgendamentoPage.AppointmentSchemaMeaning | src/pages/NovoAgendamentoPage.tsx:39-50 | the appointment schema accepts exactly: non-empty patient, professional, hour, type and modality, a date, and optional insurer and notes |
| NovoAgendamentoPage.DefaultsRejected | src/pages/NovoAgendamentoPage.tsx:79-87 | the untouched form is rejected |
| NovoAgendamentoPage.ModalidadeLooser | src/pages/NovoAgendamentoPage.tsx:47 | this form accepts every non-empty modality, and each one other than "presencial" and "online" is rejected by the public booking schema |
| NovoAgendamentoPage.FutureDaysEnabled | src/pages/NovoAgendamentoPage.tsx:236 | every day after today is enabled in the calendar |
| NovoAgendamentoPage.HorariosLists | src/pages/NovoAgendamentoPage.tsx:70-100 | the initial and the fetched hour lists both have eight entries, and agree only at positions 0, 1, 4 and 6 |
| NovoAgendamentoPage.NovoAgendamento.constructor | src/pages/NovoAgendamentoPage.tsx:70-87 | the page opens with its defaults and the initial hour list |
| NovoAgendamentoPage.NovoAgendamento.SelectDate | src/pages/NovoAgendamentoPage.tsx:90-101 | choosing a date stores it and starts one slot timer; clearing it removes the date and starts none |
| NovoAgendamentoPage.NovoAgendamento.SlotTimerFires | src/pages/NovoAgendamentoPage.tsx:95-100 | the timer replaces the hour list with the fetched one |
| NovoAgendamentoPage.NovoAgendamento.SetValue | src/pages/NovoAgendamentoPage.tsx:79-87 | editing a field writes that value only |
| NovoProcedimentoPage.ImagesOf | src/pages/NovoProcedimentoPage.tsx:56-70 | the attached photos are exactly the image files, tagged with the chosen kind, never more than the files |
| NovoProcedimentoPage.ImagesOfAppend | src/pages/NovoProcedimentoPage.tsx:58-70 | uploading two batches attaches the same photos as uploading them together |
| NovoProcedimentoPage.NovoProcedimento.constructor | src/pages/NovoProcedimentoPage.tsx:28-44 | the page opens with the initial form and no photos |
| NovoProcedimentoPage.NovoProcedimento.HandleInputChange | src/pages/NovoProcedimentoPage.tsx:46-51 | a field change writes that field and leaves the photos |
| NovoProcedimentoPage.NovoProcedimento.HandleFileUpload | src/pages/NovoProcedimentoPage.tsx:53-77 | no file list changes nothing; otherwise the images are appended to the chosen gallery only |
| NovoProcedimentoPage.NovoProcedimento.RemoverFoto | src/pages/NovoProcedimentoPage.tsx:79-93 | removing drops the photos with that id from the chosen gallery only |
| NovoProcedimentoPage.NovoProcedimento.HandleSubmit | src/pages/NovoProcedimentoPage.tsx:95-116 | submission is accepted exactly when patient, procedure and date are filled |
| NovoProcedimentoPage.RemovalMeaning | src/pages/NovoProcedimentoPage.tsx:84 | removal keeps exactly the other photos, in order, and an absent id changes nothing |
| NovoProcedimentoPage.RequiredFields | src/pages/NovoProcedimentoPage.tsx:99 | the initial form fails the check, and a filled one passes exactly when the three fields are non-empty |
| PacientesPage.FilteredPatients | src/pages/PacientesPage.tsx:43-47 | the list shows exactly the patients whose name, email or phone contains the query ignoring case, in order |
| PacientesPage.EmptyQueryShowsAll | src/pages/PacientesPage.tsx:19 | the empty query shows every patient |
| PacientesPage.QueryCaseIgnored | src/pages/PacientesPage.tsx:43-47 | queries that differ only in case show the same patients |
| PacientesPage.NotFoundIff | src/pages/PacientesPage.tsx:128-164 | the "not found" row shows exactly when no patient matches |
| ProcedimentosPage.Filtered | src/pages/ProcedimentosPage.tsx:55-59 | the list shows exactly the procedures whose patient or procedure name contains the term ignoring case, in order |
| ProcedimentosPage.EmptySearchShowsAll | src/pages/ProcedimentosPage.tsx:53-59 | the empty term shows every procedure |
| ProcedimentosPage.StatusColorsDistinct | src/pages/ProcedimentosPage.tsx:61-72 | the three known statuses get three different colours, and every other status the grey one |
| ProcedimentosPage.StatusCount | src/pages/ProcedimentosPage.tsx:114 | a status count equals the number of procedures whose status is exactly that one; it is at most the total, and zero exactly when no procedure has that status |
| ProcedimentosPage.FilterStatusLength | src/pages/ProcedimentosPage.tsx:114 | the list kept by the status filter is as long as the number of times that status occurs among the procedures |
| ProcedimentosPage.CountsWithinTotal | src/pages/ProcedimentosPage.tsx:114-142 | the three summary counts together never exceed the number of procedures |
| ProcedimentosPage.MockCounts | src/pages/ProcedimentosPage.tsx:19-50 | on the mock data each summary card counts one of the three procedures |
| AgendaSemanal.HourLabelDigits | src/components/agendamentos/AgendaSemanal.tsx:35-38 | an hour label is its two padded digits followed by ":00" |
| AgendaSemanal.Horarios | src/components/agendamentos/AgendaSemanal.tsx:35-38 | the grid has eleven rows, row i labelled with hour 8 + i |
| AgendaSemanal.RowShape | src/components/agendamentos/AgendaSemanal.tsx:35-38 | each row label has the form "HH:00", and its hour is 8 + i |
| AgendaSemanal.HorariosShape | src/components/agendamentos/AgendaSemanal.tsx:35-38 | every row label has the form "HH:00", with hours 8 to 18 in order |
| AgendaSemanal.FirstAndLastRows | src/components/agendamentos/AgendaSemanal.tsx:35-38 | the rows run from "08:00" to "18:00" |
| AgendaSemanal.Cell | src/components/agendamentos/AgendaSemanal.tsx:40-42 | a cell shows exactly the appointments of that day and hour, in order |
| AgendaSemanal.OffHourNeverShown | src/components/agendamentos/AgendaSemanal.tsx:35-42 | an appointment whose hour is not five characters ending in ":00" (such as "09:30", "09:05" or "9:00") appears in no cell |
| AgendaSemanal.MockOffHour | src/components/agendamentos/AgendaSemanal.tsx:18 | Paulo Ferreira's 09:30 appointment is never shown on the grid |
| AgendaSemanal.WeekStart | src/components/agendamentos/AgendaSemanal.tsx:24 | the week starts on the Sunday on or before the current day |
| AgendaSemanal.WeekDays | src/components/agendamentos/AgendaSemanal.tsx:25 | the header shows seven consecutive days, Sunday to Saturday, and the day the week was built from is one of them |
| AgendaSemanal.WeekStartShift | src/components/agendamentos/AgendaSemanal.tsx:24-33 | moving the day by a week moves the week's start by a week |
| AgendaSemanal.WeekCursor.constructor | src/components/agendamentos/AgendaSemanal.tsx:22 | the agenda opens on today's week |
| AgendaSemanal.WeekCursor.Days | src/components/agendamentos/AgendaSemanal.tsx:24-25 | the days shown are seven, start on the Sunday of the cursor's week, run Sunday to Saturday, and include the cursor's day |
| AgendaSemanal.WeekCursor.GoToPreviousWeek | src/components/agendamentos/AgendaSemanal.tsx:27-29 | the current day and the week shown both move back one week |
| AgendaSemanal.WeekCursor.GoToNextWeek | src/components/agendamentos/AgendaSemanal.tsx:31-33 | the current day and the week shown both move forward one week |
| AgendaSemanal.NextThenPrevious | src/components/agendamentos/AgendaSemanal.tsx:27-33 | next then previous comes back to the same day and the same week |
| DashboardSidebar.IsActive | src/components/layout/DashboardSidebar.tsx:42-46 | the root item is active only on "/" itself; any other item on every path that starts with its path |
| DashboardSidebar.SubPathsActive | src/components/layout/DashboardSidebar.tsx:44 | a non-root item is active on its own path and every path below it |
| DashboardSidebar.RootOnlyOnRoot | src/components/layout/DashboardSidebar.tsx:43 | the root item is active on no other path |
| DashboardSidebar.AnyActive | src/components/layout/DashboardSidebar.tsx:56-57 | a group is expanded exactly when one of its items is active |
| DashboardSidebar.MainExpandedOn | src/components/layout/DashboardSidebar.tsx:30-35 | the main group is expanded on "/" and below each of its other items |
| DashboardSidebar.PrefixesDiffer | src/components/layout/DashboardSidebar.tsx:44 | a path that starts with one item's path cannot start with a path that differs from it early on |
| DashboardSidebar.GroupsExclusive | src/components/layout/DashboardSidebar.tsx:30-57 | no path expands both groups |
| LeadsKanban.Bucket | src/components/marketing/LeadsKanban.tsx:29-35 | a status's bucket holds exactly the leads of that status, in list order |
| LeadsKanban.BucketEmpty | src/components/marketing/LeadsKanban.tsx:74 | a status no lead has gets an empty bucket |
| LeadsKanban.PushKeys | src/components/marketing/LeadsKanban.tsx:30-33 | after a push, the grouping's keys are exactly the statuses seen so far |
| LeadsKanban.PushKeepsGroups | src/components/marketing/LeadsKanban.tsx:30-33 | pushing the next lead onto its status keeps each group equal to that status's bucket |
| LeadsKanban.BucketPush | src/components/marketing/LeadsKanban.tsx:30-33 | appending a lead grows its own status's bucket by exactly that lead and leaves every other bucket as it was |
| LeadsKanban.PushStep | src/components/marketing/LeadsKanban.tsx:29-35 | one step of the reduce extends the grouping from the first i leads to the first i + 1 |
| LeadsKanban.GroupLeads | src/components/marketing/LeadsKanban.tsx:29-35 | the reduce yields one key per status present, each holding that status's leads in order |
| LeadsKanban.ColumnMeaning | src/components/marketing/LeadsKanban.tsx:74-80 | a column lists its status's bucket and its badge counts it; a status with no leads shows 0 |
| LeadsKanban.OffColumnHidden | src/components/marketing/LeadsKanban.tsx:23-58 | a lead whose status is not one of the three columns is grouped but shown in no column |
| LeadsKanban.SumSizesEmpty | src/components/marketing/LeadsKanban.tsx:29-35 | no leads give empty buckets everywhere |
| LeadsKanban.SumSizesCons | src/components/marketing/LeadsKanban.tsx:29-35 | adding a lead adds one to the bucket sizes for each listed occurrence of its status |
| LeadsKanban.CountOnce | src/components/marketing/LeadsKanban.tsx:29-35 | in a duplicate-free status list each present status occurs once |
| LeadsKanban.BucketSizesSum | src/components/marketing/LeadsKanban.tsx:29-35 | over distinct statuses covering every lead, the bucket sizes add up to the number of leads |
| LeadsKanban.StatusKeys | src/components/marketing/LeadsKanban.tsx:29-35 | the grouping's keys are the distinct statuses of the leads |
| LeadsKanban.GroupsPartition | src/components/marketing/LeadsKanban.tsx:29-35 | the grouping is a partition: every lead is in its status's group, every group holds only its status, and the sizes sum to the number of leads |
| LeadsKanban.Board.constructor | src/components/marketing/LeadsKanban.tsx:26 | no lead is being dragged at first |
| LeadsKanban.Board.HandleDragStart | src/components/marketing/LeadsKanban.tsx:38-40 | dragging remembers the lead |
| LeadsKanban.Board.HandleDrop | src/components/marketing/LeadsKanban.tsx:48-54 | a drop reports a status change exactly when a lead is dragged onto another status, then forgets it; otherwise the dragged lead stays |
| LeadsPage.UpdateStatusMeaning | src/pages/marketing/LeadsPage.tsx:25-31 | the list keeps its length and order; the lead with that id takes the new status and keeps its other fields; the others are unchanged |
| LeadsPage.UnknownIdNoChange | src/pages/marketing/LeadsPage.tsx:27-29 | an id no lead has leaves the list unchanged |
| LeadsPage.UpdateStatusIdempotent | src/pages/marketing/LeadsPage.tsx:25-31 | applying the same status change twice is applying it once |
| LeadsPage.DropMovesLead | src/pages/marketing/LeadsPage.tsx:25-31 | after a drop the lead is in the target column with its new status and gone from its old one |
| LeadsPage.Page.constructor | src/pages/marketing/LeadsPage.tsx:12-23 | the page starts with the five mock leads |
| LeadsPage.Page.HandleStatusChange | src/pages/marketing/LeadsPage.tsx:25-31 | the list becomes its status update by id |
| SelecionarDestinatariosPage.TabMeaning | src/pages/marketing/SelecionarDestinatariosPage.tsx:46-55 | the "pacientes" tab lists the patients, "leads" the leads, and any other tab every contact |
| SelecionarDestinatariosPage.MatchesEmpty | src/pages/marketing/SelecionarDestinatariosPage.tsx:57 | the empty search matches every contact |
| SelecionarDestinatariosPage.FilteredContacts | src/pages/marketing/SelecionarDestinatariosPage.tsx:48-66 | the list shows exactly the tab's contacts whose name or email contains the term ignoring case, or whose phone contains it as typed, in order; an empty term shows the whole tab |
| SelecionarDestinatariosPage.Ids | src/pages/marketing/SelecionarDestinatariosPage.tsx:79 | the ids of the shown contacts, position by position |
| SelecionarDestinatariosPage.ToggleMeaning | src/pages/marketing/SelecionarDestinatariosPage.tsx:70-76 | toggling flips whether that contact is selected and leaves every other contact as it was |
| SelecionarDestinatariosPage.ToggleNoDup | src/pages/marketing/SelecionarDestinatariosPage.tsx:70-76 | toggling never creates a duplicate selection |
| SelecionarDestinatariosPage.ToggleTwice | src/pages/marketing/SelecionarDestinatariosPage.tsx:70-76 | toggling twice selects the same contacts; for an unselected one it gives back the same list |
| SelecionarDestinatariosPage.SelectAllWhenAllSelected | src/pages/marketing/SelecionarDestinatariosPage.tsx:80-83 | when every shown contact is selected, select-all deselects exactly them and keeps the rest in order |
| SelecionarDestinatariosPage.SelectAllWhenSomeUnselected | src/pages/marketing/SelecionarDestinatariosPage.tsx:84-86 | otherwise it appends the shown contacts not yet selected, keeping the earlier selection first, after which all shown are selected |
| SelecionarDestinatariosPage.SelectAllNoDup | src/pages/marketing/SelecionarDestinatariosPage.tsx:78-87 | select-all never creates duplicates, and over a non-empty list it flips whether all shown are selected |
| SelecionarDestinatariosPage.Continue | src/pages/marketing/SelecionarDestinatariosPage.tsx:89-115 | with nothing selected, continue fails; otherwise it passes on exactly the selected contacts, in list order |
| SelecionarDestinatariosPage.ContinueDisabledIff | src/pages/marketing/SelecionarDestinatariosPage.tsx:148 | the Continue button is disabled exactly when continuing would fail |
| SelecionarDestinatariosPage.Destinatarios.constructor | src/pages/marketing/SelecionarDestinatariosPage.tsx:42-44 | the page starts on the "todos" tab, with no search and nothing selected |
| SelecionarDestinatariosPage.Destinatarios.SetSearchTerm | src/pages/marketing/SelecionarDestinatariosPage.tsx:42 | typing sets the search and keeps the selection |
| SelecionarDestinatariosPage.Destinatarios.SetActiveTab | src/pages/marketing/SelecionarDestinatariosPage.tsx:44 | switching tab keeps the selection |
| SelecionarDestinatariosPage.Destinatarios.HandleSelectContact | src/pages/marketing/SelecionarDestinatariosPage.tsx:70-76 | the selection becomes its toggle and stays duplicate-free |
| SelecionarDestinatariosPage.Destinatarios.HandleSelectAll | src/pages/marketing/SelecionarDestinatariosPage.tsx:78-87 | the selection becomes select-all over the ids currently shown, and stays duplicate-free |
| SelecionarDestinatariosPage.Destinatarios.HandleContinue | src/pages/marketing/SelecionarDestinatariosPage.tsx:89-115 | continuing fails exactly when nothing is selected |
| ConfiguracoesMarketingPage.HandlersMeaning | src/pages/marketing/ConfiguracoesMarketingPage.tsx:15-31 | connect sets and disconnect clears the named platform's flag, leaving the other; any other name changes nothing |
| ConfiguracoesMarketingPage.ConnectedAfter | src/pages/marketing/ConfiguracoesMarketingPage.tsx:15-31 | after connecting, the platform reads as connected, and after disconnecting as not; other platforms read as before |
| ConfiguracoesMarketingPage.ButtonsAlternate | src/pages/marketing/ConfiguracoesMarketingPage.tsx:82-88 | exactly one of a platform's two buttons is enabled; clicking it enables the other, and connect then disconnect returns to the start |
| ConfiguracoesMarketingPage.Page.constructor | src/pages/marketing/ConfiguracoesMarketingPage.tsx:12-13 | both platforms start disconnected |
| ConfiguracoesMarketingPage.Page.HandleConnect | src/pages/marketing/ConfiguracoesMarketingPage.tsx:15-22 | the flags become their connect update |
| ConfiguracoesMarketingPage.Page.HandleDisconnect | src/pages/marketing/ConfiguracoesMarketingPage.tsx:24-31 | the flags become their disconnect update |
| WhatsAppPanel.ProbeOutcome | src/components/configuracoes/WhatsAppPanel.tsx:20-34 | a probe only moves between disconnected and connected: a positive one connects a disconnected panel and records the time, a negative one disconnects a connected panel; connecting is never touched |
| WhatsAppPanel.QrFlow | src/components/configuracoes/WhatsAppPanel.tsx:37-68 | generating sets connecting; the first timer shows a non-empty code and ends generation; the second connects with the time, or disconnects keeping the code |
| WhatsAppPanel.DisconnectOutcome | src/components/configuracoes/WhatsAppPanel.tsx:71-76 | disconnecting clears the code and the last connection, whatever the state |
| WhatsAppPanel.InitialInv | src/components/configuracoes/WhatsAppPanel.tsx:14-17 | the initial panel satisfies the invariant |
| WhatsAppPanel.StepInv | src/components/configuracoes/WhatsAppPanel.tsx:20-76 | every event that can happen keeps the invariant: at most one timer pending, generating exactly while the first is, connecting exactly while either is, and connected only with a recorded time |
| WhatsAppPanel.RunInv | src/components/configuracoes/WhatsAppPanel.tsx:20-184 | the invariant holds after any sequence of events |
| WhatsAppPanel.ConnectingEnds | src/components/configuracoes/WhatsAppPanel.tsx:155-184 | a connecting panel always has a pending timer that will end it, and shows neither button |
| WhatsAppPanel.Component.constructor | src/components/configuracoes/WhatsAppPanel.tsx:14-17 | the panel starts disconnected, with no code and no timers |
| WhatsAppPanel.Component.CheckConnectionStatus | src/components/configuracoes/WhatsAppPanel.tsx:20-34 | the state becomes the probe's outcome |
| WhatsAppPanel.Component.GenerateQRCode | src/components/configuracoes/WhatsAppPanel.tsx:37-42 | the state becomes the start of generation |
| WhatsAppPanel.Component.QrTimerFires | src/components/configuracoes/WhatsAppPanel.tsx:42-57 | the state becomes the code shown, with the second timer pending |
| WhatsAppPanel.Component.ConnectTimerFires | src/components/configuracoes/WhatsAppPanel.tsx:57-66 | the state becomes the connection's outcome |
| WhatsAppPanel.Component.Disconnect | src/components/configuracoes/WhatsAppPanel.tsx:71-76 | the state becomes the disconnection |

## Left out

- Rendering, styling, toasts, `console.log`, `document.title` and the meta description are not modelled. Neither is navigation after a save (`navigate(...)`), nor the browser's back button.
- Strings.Lower: lowercases ASCII letters only. JavaScript's `toLowerCase` also folds accented capitals (for example "Á"), so a search such as "ÁNA" matches in the browser but not in the model.
- Calendar.Weekday: days are counted in UTC. The browser uses the local time zone, so which day is "today" near midnight is not modelled.
- DateTimeSelector.DayEnabledIff: the three-month horizon (`setMonth(getMonth() + 3)`, with JavaScript's month overflow) is a parameter and is not computed.
- UseAgendamento.SlotEffectStartsFetch: the effect's dependencies are compared by value. React compares the `Date` object by identity, so re-selecting the same day starts a further fetch in the browser; every fetch still stores the same catalogue.
- UseAgendamento.Agendamento.FetchHorariosDisponiveisResolves: the `catch` branch is not modelled. The simulated delay cannot fail, and the only effect of that branch is a toast.
- UseAgendamento.Agendamento.HandleSubmitResolves: the submission's outcome is an input. The simulated delay always succeeds, and a failure only shows a toast.
- ProfissionalSelector.Shown: the selector's filter is local to the component. The booking page's invariant does not depend on it, so it is not part of `PublicAgendamentoPage`'s state.
- The `onSubmit` of the new-appointment page waits, shows a toast and navigates. Only its form, calendar and hour lists are modelled.
- The new-procedure page's random photo ids, the object-URL previews and their revocation are inputs or left out. Photos are matched by id, as the code does.
- WhatsAppPanel: the 30-second `setInterval` poll is left out, as is the effect that shows a toast on disconnection. A poll is a probe event that can arrive at any time, which `Run` covers. The QR code's base64 payload (`btoa` of an SVG) is an input; the model keeps only its prefix.
- LeadsKanban.GroupLeads: the grouping is a Dafny `map`. The source's plain object would misbehave for a status such as "constructor" (an inherited key), which the model does not capture.
- Form validation: zod's removal of unknown keys and its coercions are not modelled. Values are checked key by key as the schemas declare them.
- Email validity is an uninterpreted predicate `isEmail`. zod's email regular expression is not modelled.
- Schema.Accepts: `MinLength(n)` counts a string's Unicode scalar values. zod's `.min(n)` counts UTF-16 code units, so a character outside the Basic Multilingual Plane (an emoji, say) counts 2 in the browser and 1 here. A name or phone written with such characters can pass zod's minimum and still fail the model's.
- BookingTypes.BookingSchemaMeaning, NovoPacientePage.RequiredMeaning, NovoPacientePage.PacienteSchemaMeaning, NovoLeadPage.LeadSchemaMeaning, NovoAgendamentoPage.AppointmentSchemaMeaning: their length minimums inherit the difference above: lengths are in scalar values, not UTF-16 code units.
