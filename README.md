# Logistics and settings views of the workshop manager, in Dafny

This project models two views of a React back-office for a children's
workshop business, together with the parts of JavaScript they rely on.

- **Logistics view.** It keeps suppliers and locations in two collections.
  A modal adds or edits an item, and a confirmation dialog deletes one.
  The model covers:
  - the modal state and the effect that prefills or empties the form when the modal changes;
  - the validator: a supplier needs a name; a location needs a name, an address and a capacity that is not `<= 0`;
  - the save, which makes exactly one gateway call chosen by the mode and converts a location's capacity to a number;
  - the confirmed delete;
  - the modal title.
- **Settings view.** The model covers:
  - the company-profile form: a change replaces one field, and saving hands the form to the profile;
  - reminder rules: saving fills in defaults (name "Nuovo Reminder", 7 warning days, cadence 1, enabled), then updates the rule being edited or adds a new one;
  - the message composer, where choosing a campaign copies that campaign's subject and body into the draft;
  - the CSV text of the error-log export.

The gateway is the hook that stores each entity type. Its add, update and
remove become synchronous operations on a sequence of documents. The id
the gateway gives a new document is a parameter. Form values that are
JavaScript objects become maps from field names to values. A value is
text or a JavaScript number: NaN, a finite real, or a signed infinity.

The following JavaScript operations are written out:
- `String.prototype.trim`, with the whitespace set defined by ECMAScript;
- `Number(text)` for decimal literals;
- number truthiness, as used by `x || default`;
- comparisons with NaN.

The CSV serialiser is proved against a reader for the grammar of
section 2 of RFC 4180. Reading the export gives back:
- the header names;
- then, for each log in order: its timestamp, its error text, and its component stack with newlines replaced by spaces.

This holds whenever no timestamp contains a double quote. The timestamp is
quoted without doubling embedded quotes. A concrete lemma shows that
exporting a single log whose timestamp is one `"` gives a file that does not
read at all. For other logs with quoted timestamps the round trip is not
promised; the model does not prove in general how it fails.

Modules: `Wrappers` (Option), `JsValues`, `Store` (the gateway),
`Logistics`, `ErrorLogCsv` and `Settings`.

## Model

| member | source | states |
|---|---|---|
| JsValues.Trim | views/LogisticsView.tsx:53 | `trim` never lengthens the text, and text with no whitespace at either end comes back unchanged |
| JsValues.TrimStartSpec | views/LogisticsView.tsx:53 | the left trim drops a prefix of whitespace only and keeps the rest, which does not start with whitespace |
| JsValues.TrimEndSpec | views/LogisticsView.tsx:53 | the right trim drops a suffix of whitespace only and keeps the rest, which does not end with whitespace |
| JsValues.TrimSpec | views/LogisticsView.tsx:53 | `trim` gives the empty string exactly when the text is all whitespace; a non-empty result starts and ends with non-whitespace; text that is already trimmed is returned unchanged |
| JsValues.TextToNumber | views/LogisticsView.tsx:58 | `Number(text)`: blank text reads as 0, and a negative result needs a leading minus sign |
| JsValues.ToNumber | views/LogisticsView.tsx:58 | `Number(undefined)` is NaN, a number converts to itself, and blank text converts to 0 |
| JsValues.UnsignedFraction | views/LogisticsView.tsx:58 | a literal with a decimal point reads as its whole part plus its fraction, either part possibly empty but not both |
| JsValues.TwoPointFive | views/LogisticsView.tsx:58 | `Number("2.5")` is 2.5 |
| JsValues.InfinityTexts | views/LogisticsView.tsx:58 | `Number("Infinity")` is plus infinity and `Number("-Infinity")` is minus infinity |
| JsValues.LeadingLetterIsNaN | views/LogisticsView.tsx:58 | text that, once trimmed, starts with a letter other than the `I` of "Infinity" reads as NaN |
| JsValues.NumberOfNatText | views/LogisticsView.tsx:58 | `Number` of the decimal text of a natural number is that number |
| JsValues.NumberOfNegatedNatText | views/LogisticsView.tsx:58 | `Number` of a minus sign followed by the decimal text of `n` is `-n` |
| JsValues.DigitsValueOfNatText | views/LogisticsView.tsx:58 | the digits written for `n` read back as `n` |
| JsValues.DigitsNumber | views/LogisticsView.tsx:58 | `Number` of a non-empty digit string is its decimal value |
| JsValues.UnsignedDigits | views/LogisticsView.tsx:58 | a literal made only of digits reads as its decimal value |
| JsValues.NegatedDigits | views/LogisticsView.tsx:58 | a minus sign before a digit string negates its value |
| JsValues.UnsignedDecimal | views/LogisticsView.tsx:58 | an unsigned literal is never negative and never minus infinity; a finite one starts with a digit or a dot |
| JsValues.OrDefault | views/SettingsView.tsx:60-61 | the default operator on a number gives a truthy result: `n` itself when `n` is truthy, otherwise the default `d` |
| Store.AddDoc | views/LogisticsView.tsx:68 | add appends one document with the fresh id and the data; the ids grow by exactly that id and stay unique |
| Store.UpdateDocs | views/LogisticsView.tsx:71 | update merges the given fields into each document with the id; all other documents are untouched and the length is kept |
| Store.RemoveDocs | views/LogisticsView.tsx:87 | remove leaves exactly the documents whose id differs; none with the id remains |
| Store.UpdatesAgree | views/LogisticsView.tsx:71 | two updates of an id give the same collection when they agree on every document carrying that id |
| Store.OnlyDocWithId | views/LogisticsView.tsx:71 | with unique ids, a stored document is the only one carrying its id |
| Store.UpdatedDocHasFields | views/LogisticsView.tsx:71 | a document an update produced carries the updated id and every updated field with its new value |
| Store.AddedDocIsNew | views/LogisticsView.tsx:68 | the only document an add introduces is the one with the fresh id and the data |
| Store.ConsUnique | views/LogisticsView.tsx:87-89 | a document whose id is new, put in front of a collection with unique ids, keeps them unique |
| Store.UpdateKeepsIds | views/LogisticsView.tsx:71 | an update keeps the set of ids and their uniqueness |
| Store.RemoveAbsent | views/LogisticsView.tsx:87-89 | removing an id that is not present changes nothing |
| Store.RemoveIds | views/LogisticsView.tsx:87-89 | after a removal the ids are the old ids minus the removed one |
| Store.RemoveKeepsUnique | views/LogisticsView.tsx:87-89 | a removal keeps ids unique |
| Store.RemovePresent | views/LogisticsView.tsx:87-89 | with unique ids, removing a present id drops exactly one document |
| Logistics.ValidationErrors | views/LogisticsView.tsx:50-59 | in both directions: the name error appears exactly when a modal is open and the name is missing or blank; the address error and the capacity error appear only in location modes, when the address is missing or blank, or the capacity is missing or `Number(capacity) <= 0`; only these three keys occur, each with its message |
| Logistics.TextMissingMeansBlank | views/LogisticsView.tsx:53 | `!x?.trim()` holds exactly when the field is absent or all whitespace |
| Logistics.WithNumericCapacity | views/LogisticsView.tsx:74 | the saved location record has the form's keys plus `capacity`; `capacity` is `Number(form.capacity)`; every other field is copied |
| Logistics.ItemRecord | views/LogisticsView.tsx:38 | the prefilled form holds exactly the item's keys and `id`; `id` is the item's id, and every other key has the item's value |
| Logistics.Prefill | views/LogisticsView.tsx:37-41 | the effect empties the form for a new item or a closed modal; for an edit it installs exactly the item's fields, with its id under `id` |
| Logistics.AfterSave | views/LogisticsView.tsx:66-79 | a closed modal changes nothing; a supplier save leaves the locations alone and a location save the suppliers; an add appends one document with the fresh id after the old ones (the supplier one holding the form); an edit keeps the length and every document with another id |
| Logistics.ModalTitle | views/LogisticsView.tsx:96-101 | no title exactly when the modal is closed; the title starts with "Nuovo" exactly in the new modes; it ends with "Fornitore" exactly in the supplier modes |
| Logistics.SupplierChecksOnlyName | views/LogisticsView.tsx:52-54 | in supplier modes, forms with the same name give the same errors, whatever their address or capacity |
| Logistics.TypedCapacityNat | views/LogisticsView.tsx:58 | a capacity typed as the digits of `n` is rejected exactly when `n` is 0 |
| Logistics.TypedCapacityNegative | views/LogisticsView.tsx:58 | a capacity typed as a negative number is rejected |
| Logistics.NonNumericCapacityPasses | views/LogisticsView.tsx:58 | every capacity that converts to NaN is accepted, because `NaN <= 0` is false |
| Logistics.LetterCapacityPasses | views/LogisticsView.tsx:58 | a capacity typed as text that starts with a letter other than `I` (after trimming) is accepted |
| Logistics.SaveTouchesOneCollection | views/LogisticsView.tsx:67-79 | a save changes only the collection of its mode; an add grows that collection's ids by the fresh id, and an edit keeps them |
| Logistics.SavedLocationCapacity | views/LogisticsView.tsx:73-78 | after a location save that passed validation, the written document (the appended one for a new location; every document with the edited id, position by position, for an edit) has a numeric capacity that is not `<= 0`, and every other form field verbatim |
| Logistics.SaveKeepsStore | views/LogisticsView.tsx:64-82 | a save keeps ids unique, and names and addresses textual, in both collections |
| Logistics.MergeKeepsText | views/LogisticsView.tsx:71 | merging fields into a record whose name and address are text, from a record where they are text, keeps them text |
| Logistics.UpdateKeepsText | views/LogisticsView.tsx:71 | an update with such fields keeps name and address textual in every document |
| Logistics.AddKeepsText | views/LogisticsView.tsx:68 | an add with such fields keeps name and address textual in every document |
| Logistics.MergeOwnFields | views/LogisticsView.tsx:39 | merging an item's prefilled form into its own fields only adds its id |
| Logistics.NumericCapacityKept | views/LogisticsView.tsx:74 | a record whose capacity is already a number is unchanged by the capacity conversion |
| Logistics.UntouchedSupplierEdit | views/LogisticsView.tsx:71 | saving a supplier opened for editing, without changes, only writes its own id into its fields |
| Logistics.UntouchedLocationEdit | views/LogisticsView.tsx:77 | the same for a location whose capacity is already a number |
| Logistics.LogisticsView.constructor | views/LogisticsView.tsx:32-35 | the view starts with the modal closed, nothing pending deletion, and an empty form and error map |
| Logistics.LogisticsView.SetModalState | views/LogisticsView.tsx:37-48 | the new mode is stored; unless the modal stays closed, the form becomes the item (edit modes) or empty (otherwise), and the errors are cleared; the collections and the pending delete are untouched |
| Logistics.LogisticsView.EditField | views/LogisticsView.tsx:108-118 | an input writes its text under its key and leaves the rest of the form unchanged |
| Logistics.LogisticsView.Validate | views/LogisticsView.tsx:50-62 | the recorded errors are `ValidationErrors` of the mode and the form, and the result is true exactly when there are none |
| Logistics.LogisticsView.HandleSave | views/LogisticsView.tsx:64-82 | if validation fails, only the error map changes; otherwise the collections become `AfterSave` of the mode, the modal closes, and the errors are cleared |
| Logistics.LogisticsView.ApplySave | views/LogisticsView.tsx:66-79 | the collections become `AfterSave` of the mode, the form and the fresh id, and ids stay unique and names and addresses textual |
| Logistics.LogisticsView.RequestDelete | views/LogisticsView.tsx:152 | the trash button records the item's kind and id as pending |
| Logistics.LogisticsView.CancelDelete | views/LogisticsView.tsx:190 | closing the confirmation clears the pending item |
| Logistics.LogisticsView.HandleConfirmDelete | views/LogisticsView.tsx:84-94 | with an item pending, exactly the collection of its kind loses the documents with its id, and the pending item is cleared; with nothing pending, nothing changes |
| ErrorLogCsv.DoubleQuotes | views/SettingsView.tsx:105 | quote doubling leaves text without quotes unchanged |
| ErrorLogCsv.SpacesForNewlines | views/SettingsView.tsx:106 | each newline becomes a space, every other character is kept, and the length is kept |
| ErrorLogCsv.RowFields | views/SettingsView.tsx:103-107 | each log gives three fields, each wrapped in double quotes, and the stack field holds no line feed |
| ErrorLogCsv.Join | views/SettingsView.tsx:111 | a join is at least as long as its first part and starts with that part's first character |
| ErrorLogCsv.RowLines | views/SettingsView.tsx:103-107 | one row text per log, in order, made of that log's three quoted fields |
| ErrorLogCsv.ExportCsv | views/SettingsView.tsx:97-111 | there is no CSV exactly when there are no logs |
| ErrorLogCsv.DecodedRows | views/SettingsView.tsx:103-107 | one decoded record per log, in order |
| ErrorLogCsv.EscapedRoundTrip | views/SettingsView.tsx:105 | an escaped field body with doubled quotes reads back as the original text |
| ErrorLogCsv.EscapedStep | views/SettingsView.tsx:105 | one content character, written with its quote doubled, reads back in front of the rest of the field |
| ErrorLogCsv.NewlinesAndQuotesCommute | views/SettingsView.tsx:106 | doubling quotes and replacing newlines can be done in either order |
| ErrorLogCsv.SpacesDistribute | views/SettingsView.tsx:106 | replacing newlines distributes over concatenation |
| ErrorLogCsv.FieldRoundTrip | views/SettingsView.tsx:104-106 | a quoted field with doubled quotes, followed by a delimiter, reads back as its text |
| ErrorLogCsv.UnescapedPrefix | views/SettingsView.tsx:102 | the non-escaped reader stops exactly at the delimiter after plain text |
| ErrorLogCsv.UnescapedRoundTrip | views/SettingsView.tsx:102 | a plain header name, followed by a delimiter, reads back as itself |
| ErrorLogCsv.RecordCons | views/SettingsView.tsx:103-107 | a field followed by a comma continues the record |
| ErrorLogCsv.RecordLast | views/SettingsView.tsx:103-107 | a field followed by anything but a comma ends the record |
| ErrorLogCsv.ThreeFields | views/SettingsView.tsx:103-107 | three fields separated by commas read back as a record of three |
| ErrorLogCsv.JoinThree | views/SettingsView.tsx:103-107 | joining three fields with commas gives the fields with a comma between each pair |
| ErrorLogCsv.JoinNonEmpty | views/SettingsView.tsx:111 | joining rows whose first row is non-empty gives non-empty text |
| ErrorLogCsv.RowRoundTrip | views/SettingsView.tsx:103-107 | a log's row reads back as its timestamp, its error and its stack with newlines as spaces, provided the timestamp has no quote |
| ErrorLogCsv.HeaderRoundTrip | views/SettingsView.tsx:102 | the header line reads back as the three header names |
| ErrorLogCsv.RowsTextOne | views/SettingsView.tsx:111 | the text of a single row is that row's comma-joined fields |
| ErrorLogCsv.RowsTextCons | views/SettingsView.tsx:111 | the text of two or more rows is the first row, CRLF, and the non-empty text of the rest |
| ErrorLogCsv.LastRowRoundTrip | views/SettingsView.tsx:111 | the last row, at the end of the text, is the file's last record |
| ErrorLogCsv.ConsRowRoundTrip | views/SettingsView.tsx:111 | a row followed by CRLF and readable text reads as one more record in front |
| ErrorLogCsv.RowsRoundTrip | views/SettingsView.tsx:103-111 | the CRLF-joined rows read back as one record per log, in order |
| ErrorLogCsv.CsvRoundTrip | views/SettingsView.tsx:97-111 | for a non-empty log list whose timestamps contain no quote, reading the export gives the header names, then one decoded record per log in order |
| ErrorLogCsv.QuoteLogRow | views/SettingsView.tsx:104 | the row of a log whose timestamp is one double quote has that quote unescaped between the field quotes |
| ErrorLogCsv.UnescapedTimestampBreaksCsv | views/SettingsView.tsx:104 | exporting a single log whose timestamp is one double quote gives a file that does not read |
| ErrorLogCsv.UnclosedRow | views/SettingsView.tsx:104 | the row written for that timestamp opens a field that is never closed |
| Settings.WithField | views/SettingsView.tsx:52-54 | a profile change gives the named field the typed text and keeps every other field |
| Settings.SameFields | views/SettingsView.tsx:52-54 | two profiles that agree on every field are equal |
| Settings.RetypeKeepsProfile | views/SettingsView.tsx:52-54 | typing a field's current text again leaves the profile unchanged |
| Settings.EditsCommute | views/SettingsView.tsx:52-54 | changes to two different fields can be made in either order |
| Settings.LastEditWins | views/SettingsView.tsx:52-54 | a later change of the same field replaces the earlier one |
| Settings.NormalizeReminder | views/SettingsView.tsx:58-63 | the saved name is the entered name if it is non-empty, else "Nuovo Reminder"; warning days and cadence keep a truthy entered number, else they become 7 and 1, so they are never 0 or NaN; the rule is disabled only by an explicit `false` |
| Settings.EmptyFormDefaults | views/SettingsView.tsx:58-63 | saving a new rule with an empty form gives ("Nuovo Reminder", 7, 1, enabled) |
| Settings.ResaveKeepsReminder | views/SettingsView.tsx:58-63 | re-saving an opened rule whose name and numbers are set stores that rule unchanged |
| Settings.NormalizeIdempotent | views/SettingsView.tsx:58-63 | opening a saved rule and saving it again stores the same data |
| Settings.TypedPreWarningDays | views/SettingsView.tsx:60 | typed warning days `k` are saved as `k`, except that 0 is saved as 7 |
| Settings.TypedCadence | views/SettingsView.tsx:61 | a typed cadence `k` is saved as `k`, except that 0 is saved as 1 |
| Settings.NegativeCadenceKept | views/SettingsView.tsx:61 | a typed negative cadence is saved as it is; nothing rejects it |
| Settings.UpdateReminders | views/SettingsView.tsx:65 | the update gives each rule with the edited id the saved fields; every other rule is untouched and the length is kept |
| Settings.UpdateKeepsReminderIds | views/SettingsView.tsx:65 | an update keeps the set of rule ids and their uniqueness |
| Settings.UpdateAbsentReminder | views/SettingsView.tsx:65 | updating an id no rule has changes nothing |
| Settings.EditSaveIdempotent | views/SettingsView.tsx:58-65 | saving an edited rule a second time, from its stored fields, leaves the rule list as the first save left it |
| Settings.FirstCampaignIndex | views/SettingsView.tsx:90 | returns the position of the first campaign with the id, or the list length when there is none |
| Settings.FindCampaign | views/SettingsView.tsx:90 | `find` gives nothing exactly when no campaign has the id; otherwise it gives the first campaign with that id |
| Settings.FindListedCampaign | views/SettingsView.tsx:90 | when ids are distinct, looking up a listed campaign's id finds that campaign |
| Settings.WithCampaignTemplate | views/SettingsView.tsx:88-95 | an empty or unknown campaign id leaves the draft unchanged; a known one copies that campaign's subject and body; channel, recipients, id and mode never change |
| Settings.TemplateIdempotent | views/SettingsView.tsx:88-95 | running the campaign effect again on its own result changes nothing |
| Settings.ChosenCampaignText | views/SettingsView.tsx:88-95 | when ids are distinct, choosing a listed campaign shows exactly its subject and body |
| Settings.SettingsView.constructor | views/SettingsView.tsx:31-44 | the first render: the profile form holds the profile, both modals are closed, and the reminder form and the draft are empty |
| Settings.SettingsView.ReceiveProfile | views/SettingsView.tsx:35 | a new profile resets the profile form to it |
| Settings.SettingsView.HandleSettingsChange | views/SettingsView.tsx:52-54 | the profile form becomes `WithField` of the changed field |
| Settings.SettingsView.HandleSaveSettings | views/SettingsView.tsx:46-50 | the profile becomes the form, and the form is unchanged |
| Settings.SettingsView.OpenNewReminder | views/SettingsView.tsx:162 | no rule is being edited, the form is empty, and the modal is open |
| Settings.SettingsView.OpenEditReminder | views/SettingsView.tsx:170 | the rule is being edited, the form holds its fields, and the modal is open |
| Settings.SettingsView.CloseReminderModal | views/SettingsView.tsx:243 | only the reminder modal closes |
| Settings.SettingsView.SetReminderName | views/SettingsView.tsx:245 | the form's name becomes the typed text |
| Settings.SettingsView.SetPreWarningDays | views/SettingsView.tsx:246 | the form's warning days become `Number` of the typed text |
| Settings.SettingsView.SetCadence | views/SettingsView.tsx:247 | the form's cadence becomes `Number` of the typed text |
| Settings.SettingsView.HandleSaveReminder | views/SettingsView.tsx:56-71 | with a rule being edited, the rules become `UpdateReminders` of its id with the normalized form; otherwise the normalized form is appended under the fresh id; then the modal is closed, no rule is being edited, and ids stay unique |
| Settings.SettingsView.OpenMessaging | views/SettingsView.tsx:182 | the composer opens |
| Settings.SettingsView.CloseMessaging | views/SettingsView.tsx:253 | the composer closes |
| Settings.SettingsView.SetChannel | views/SettingsView.tsx:256 | only the draft's channel changes |
| Settings.SettingsView.SetRecipients | views/SettingsView.tsx:260 | only the draft's recipients change |
| Settings.SettingsView.SetBodyMode | views/SettingsView.tsx:265 | only the draft's body mode changes |
| Settings.SettingsView.SetSubject | views/SettingsView.tsx:273 | only the draft's subject changes |
| Settings.SettingsView.SetBody | views/SettingsView.tsx:275 | only the draft's body changes |
| Settings.SettingsView.SelectCampaign | views/SettingsView.tsx:88-95 | a different id is stored and the campaign effect applies the template; choosing the id already chosen changes nothing |
| Settings.SettingsView.ReceiveCampaigns | views/SettingsView.tsx:88-95 | a new campaign list is stored, and the effect re-applies the chosen template from it |
| Settings.SettingsView.DownloadErrorLog | views/SettingsView.tsx:97-111 | the downloaded text is `ExportCsv` of the logs, and there is none exactly when there are no logs |

## Left out

- `Number(text)` recognises decimal literals with an optional sign, an optional fraction, and "Infinity". It does not recognise exponents (`1e3`) or hexadecimal, octal and binary literals; the model reads these as NaN. Numbers are exact reals: floating-point rounding and `-0` are not modelled.
- The gateway is the hook that stores each entity type (hooks/useFirestore.ts), and it is not part of this model. Add, update and remove are applied synchronously. The id of an added document is a parameter. Failures, latency and interleaving of the awaited calls are not modelled. An update of an id that no longer exists does nothing here.
- `alert`, the simulated sending in `handleSendMessage` (views/SettingsView.tsx:73-86), the tabs, the JSX rendering and styling, and `toLocaleString` date formatting are not modelled.
- `DownloadErrorLog`: the `data:text/csv;charset=utf-8,` prefix, `encodeURI`, and the temporary link that triggers the download are DOM work. The model returns the CSV text that follows the prefix.
- Logistics.ValidationErrors: the model requires that name and address are text, as `Supplier` and `Location` declare. Non-text values would make `trim` throw, and that case is not modelled.
- The reminder form's copy of the rule id, set when a rule is opened, is not kept, because the save never reads it. `removeReminderSetting` is passed to the view but never called, so it has no model.
- `Campaign.targetStatus`, the campaign's name and type as shown in the select labels, and the parents list (used only for labels and the simulated send) are not modelled.
- The profile form's input ids are modelled as the six `CompanyProfile` field names, because those are the only inputs wired to `handleSettingsChange`.
- ErrorLogCsv.CsvRoundTrip: stated only for timestamps without double quotes. For a timestamp holding one, only the one-log case is proved (UnescapedTimestampBreaksCsv). With more logs the file can still read, but wrongly, and the model does not prove that in general.
- The other views, App.tsx, firebase.ts, data.ts and components/ErrorBoundary.tsx are not part of this model. The code that creates error logs is not part of this model, so the CSV round trip is stated for timestamps without double quotes.
- React rendering is reduced to the state each handler and effect writes. An effect runs when its dependency changes value. Object identity, batching and re-render timing are not modelled.
