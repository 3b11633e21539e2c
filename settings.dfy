/**
 * The settings view: the company-profile form, the reminder rules with the
 * defaults their save fills in, the message composer whose chosen campaign
 * copies its template text, and the error-log export.
 */
module Settings {
  import opened Wrappers
  import opened JsValues
  import opened ErrorLogCsv

  // ---------------------------------------------------------------------
  // Company profile
  // ---------------------------------------------------------------------

  datatype CompanyProfile = CompanyProfile(
    companyName: string,
    vatNumber: string,
    address: string,
    email: string,
    phone: string,
    taxRegime: string)

  /** The ids of the profile form's inputs; each names the field it edits. */
  datatype ProfileField = CompanyName | VatNumber | Address | Email | Phone | TaxRegime

  function FieldOf(p: CompanyProfile, f: ProfileField): string
  {
    match f
    case CompanyName => p.companyName
    case VatNumber => p.vatNumber
    case Address => p.address
    case Email => p.email
    case Phone => p.phone
    case TaxRegime => p.taxRegime
  }

  /** `{ ...p, [f]: v }`: the named field takes the new text, every other field keeps its own. */
  function WithField(p: CompanyProfile, f: ProfileField, v: string): (r: CompanyProfile)
    ensures FieldOf(r, f) == v
    ensures forall g :: g != f ==> FieldOf(r, g) == FieldOf(p, g)
  {
    match f
    case CompanyName => p.(companyName := v)
    case VatNumber => p.(vatNumber := v)
    case Address => p.(address := v)
    case Email => p.(email := v)
    case Phone => p.(phone := v)
    case TaxRegime => p.(taxRegime := v)
  }

  /** Two profiles that agree on every field are the same profile. */
  lemma SameFields(p: CompanyProfile, q: CompanyProfile)
    requires forall f :: FieldOf(p, f) == FieldOf(q, f)
    ensures p == q
  {
    assert FieldOf(p, CompanyName) == FieldOf(q, CompanyName);
    assert FieldOf(p, VatNumber) == FieldOf(q, VatNumber);
    assert FieldOf(p, Address) == FieldOf(q, Address);
    assert FieldOf(p, Email) == FieldOf(q, Email);
    assert FieldOf(p, Phone) == FieldOf(q, Phone);
    assert FieldOf(p, TaxRegime) == FieldOf(q, TaxRegime);
  }

  /** Typing a field's current text again leaves the profile as it was. */
  lemma RetypeKeepsProfile(p: CompanyProfile, f: ProfileField)
    ensures WithField(p, f, FieldOf(p, f)) == p
  {
    SameFields(WithField(p, f, FieldOf(p, f)), p);
  }

  /** Edits to two different fields can be made in either order. */
  lemma EditsCommute(p: CompanyProfile, f: ProfileField, v: string, g: ProfileField, w: string)
    requires f != g
    ensures WithField(WithField(p, f, v), g, w) == WithField(WithField(p, g, w), f, v)
  {
    SameFields(WithField(WithField(p, f, v), g, w), WithField(WithField(p, g, w), f, v));
  }

  /** A later edit of the same field replaces the earlier one. */
  lemma LastEditWins(p: CompanyProfile, f: ProfileField, v: string, w: string)
    ensures WithField(WithField(p, f, v), f, w) == WithField(p, f, w)
  {
    SameFields(WithField(WithField(p, f, v), f, w), WithField(p, f, w));
  }

  // ---------------------------------------------------------------------
  // Reminder rules
  // ---------------------------------------------------------------------

  datatype ReminderSetting = ReminderSetting(
    id: string,
    name: string,
    preWarningDays: JsNumber,
    cadence: JsNumber,
    enabled: bool)

  /** What a save sends to the gateway: a reminder without its id. */
  datatype ReminderData = ReminderData(name: string, preWarningDays: JsNumber, cadence: JsNumber, enabled: bool)

  /** `Partial<ReminderSetting>`: every field may be undefined. */
  datatype ReminderForm = ReminderForm(
    name: Option<string>,
    preWarningDays: Option<JsNumber>,
    cadence: Option<JsNumber>,
    enabled: Option<bool>)

  const DefaultReminderName: string := "Nuovo Reminder"
  const DefaultPreWarningDays: real := 7.0
  const DefaultCadence: real := 1.0

  /** `{}`, the form of a new rule. */
  const EmptyReminderForm := ReminderForm(None, None, None, None)

  /** The form opened on an existing rule holds that rule's fields. */
  function FormOf(r: ReminderSetting): ReminderForm
  {
    ReminderForm(Some(r.name), Some(r.preWarningDays), Some(r.cadence), Some(r.enabled))
  }

  function DataOf(r: ReminderSetting): ReminderData
  {
    ReminderData(r.name, r.preWarningDays, r.cadence, r.enabled)
  }

  function WithId(id: string, d: ReminderData): ReminderSetting
  {
    ReminderSetting(id, d.name, d.preWarningDays, d.cadence, d.enabled)
  }

  /** `Number(x)` of a form number: undefined reads as NaN. */
  function NumberOf(x: Option<JsNumber>): JsNumber
  {
    match x
    case None => NaN
    case Some(n) => n
  }

  /**
   * The record `handleSaveReminder` saves: an empty or missing name becomes
   * the default name, a missing, zero or non-numeric number its default, and
   * only an explicit `false` disables the rule.
   */
  function NormalizeReminder(f: ReminderForm): (d: ReminderData)
    ensures d.name != ""
    ensures f.name.Some? && f.name.value != "" ==> d.name == f.name.value
    ensures f.name.None? || f.name.value == "" ==> d.name == DefaultReminderName
    ensures d.preWarningDays != Finite(0.0) && d.preWarningDays != NaN
    ensures d.cadence != Finite(0.0) && d.cadence != NaN
    ensures Truthy(NumberOf(f.preWarningDays)) ==> d.preWarningDays == f.preWarningDays.value
    ensures !Truthy(NumberOf(f.preWarningDays)) ==> d.preWarningDays == Finite(DefaultPreWarningDays)
    ensures Truthy(NumberOf(f.cadence)) ==> d.cadence == f.cadence.value
    ensures !Truthy(NumberOf(f.cadence)) ==> d.cadence == Finite(DefaultCadence)
    ensures d.enabled <==> f.enabled != Some(false)
  {
    ReminderData(
      if f.name.Some? && f.name.value != "" then f.name.value else DefaultReminderName,
      OrDefault(NumberOf(f.preWarningDays), DefaultPreWarningDays),
      OrDefault(NumberOf(f.cadence), DefaultCadence),
      if f.enabled.Some? then f.enabled.value else true)
  }

  /** A new rule saved without typing anything gets every default. */
  lemma EmptyFormDefaults()
    ensures NormalizeReminder(EmptyReminderForm)
         == ReminderData(DefaultReminderName, Finite(DefaultPreWarningDays), Finite(DefaultCadence), true)
  {
  }

  /** Re-saving an opened rule whose name and numbers are set stores exactly that rule. */
  lemma ResaveKeepsReminder(r: ReminderSetting)
    requires r.name != "" && Truthy(r.preWarningDays) && Truthy(r.cadence)
    ensures NormalizeReminder(FormOf(r)) == DataOf(r)
  {
  }

  /** Saving is idempotent: opening a saved rule and saving again changes nothing. */
  lemma NormalizeIdempotent(f: ReminderForm, id: string)
    ensures NormalizeReminder(FormOf(WithId(id, NormalizeReminder(f)))) == NormalizeReminder(f)
  {
    ResaveKeepsReminder(WithId(id, NormalizeReminder(f)));
  }

  /** Typing a natural number of warning days saves it, except that 0 saves the default 7. */
  lemma TypedPreWarningDays(f: ReminderForm, k: nat)
    ensures NormalizeReminder(f.(preWarningDays := Some(TextToNumber(NatText(k))))).preWarningDays
         == if k == 0 then Finite(DefaultPreWarningDays) else Finite(k as real)
  {
    NumberOfNatText(k);
  }

  /** Typing a natural number as cadence saves it, except that 0 saves the default 1. */
  lemma TypedCadence(f: ReminderForm, k: nat)
    ensures NormalizeReminder(f.(cadence := Some(TextToNumber(NatText(k))))).cadence
         == if k == 0 then Finite(DefaultCadence) else Finite(k as real)
  {
    NumberOfNatText(k);
  }

  /** Nothing rejects a negative number: a typed `-k` is saved as it is. */
  lemma NegativeCadenceKept(f: ReminderForm, k: nat)
    requires k > 0
    ensures NormalizeReminder(f.(cadence := Some(TextToNumber("-" + NatText(k))))).cadence
         == Finite(-(k as real))
  {
    NumberOfNegatedNatText(k);
  }

  function ReminderIds(rs: seq<ReminderSetting>): set<string>
  {
    set r | r in rs :: r.id
  }

  ghost predicate UniqueReminderIds(rs: seq<ReminderSetting>)
  {
    forall i, j :: 0 <= i < j < |rs| ==> rs[i].id != rs[j].id
  }

  /** `updateReminderSetting(id, d)`: every rule with that id takes the saved fields; the rest are untouched. */
  function UpdateReminders(rs: seq<ReminderSetting>, id: string, d: ReminderData): (r: seq<ReminderSetting>)
    ensures |r| == |rs|
    ensures forall i :: 0 <= i < |rs| ==> r[i] == if rs[i].id == id then WithId(id, d) else rs[i]
    decreases |rs|
  {
    if rs == [] then []
    else [if rs[0].id == id then WithId(id, d) else rs[0]] + UpdateReminders(rs[1..], id, d)
  }

  /** An update keeps the set of ids, and so their uniqueness. */
  lemma UpdateKeepsReminderIds(rs: seq<ReminderSetting>, id: string, d: ReminderData)
    ensures ReminderIds(UpdateReminders(rs, id, d)) == ReminderIds(rs)
    ensures UniqueReminderIds(rs) ==> UniqueReminderIds(UpdateReminders(rs, id, d))
  {
    var r := UpdateReminders(rs, id, d);
    forall x | x in ReminderIds(r) ensures x in ReminderIds(rs) {
      var i :| 0 <= i < |r| && r[i].id == x;
      assert rs[i].id == x;
    }
    forall x | x in ReminderIds(rs) ensures x in ReminderIds(r) {
      var i :| 0 <= i < |rs| && rs[i].id == x;
      assert r[i].id == x;
    }
  }

  /** Updating an id no rule has changes nothing. */
  lemma UpdateAbsentReminder(rs: seq<ReminderSetting>, id: string, d: ReminderData)
    requires id !in ReminderIds(rs)
    ensures UpdateReminders(rs, id, d) == rs
  {
    var r := UpdateReminders(rs, id, d);
    forall i | 0 <= i < |rs| ensures r[i] == rs[i] {
      assert rs[i] in rs;
    }
  }

  /** Re-saving an edited rule without changing its form leaves the list as the first save left it. */
  lemma EditSaveIdempotent(rs: seq<ReminderSetting>, id: string, f: ReminderForm)
    ensures UpdateReminders(UpdateReminders(rs, id, NormalizeReminder(f)), id,
                            NormalizeReminder(FormOf(WithId(id, NormalizeReminder(f)))))
         == UpdateReminders(rs, id, NormalizeReminder(f))
  {
    NormalizeIdempotent(f, id);
    var once := UpdateReminders(rs, id, NormalizeReminder(f));
    var twice := UpdateReminders(once, id, NormalizeReminder(f));
    forall i | 0 <= i < |once| ensures twice[i] == once[i] {
    }
  }

  // ---------------------------------------------------------------------
  // Messaging
  // ---------------------------------------------------------------------

  datatype Channel = ByEmail | ByWhatsApp
  /** `useTemplate`: 'template' or 'free'. */
  datatype BodyMode = UseTemplate | FreeText
  /** `Campaign.type`: 'sollecito' or 'sviluppo'. */
  datatype CampaignKind = Sollecito | Sviluppo

  datatype Campaign = Campaign(id: string, name: string, kind: CampaignKind, subject: string, body: string)

  /** The message being composed (`messageData`). */
  datatype MessageDraft = MessageDraft(
    channel: Channel,
    recipients: seq<string>,
    campaignId: string,
    subject: string,
    body: string,
    bodyMode: BodyMode)

  const EmptyDraft := MessageDraft(ByEmail, [], "", "", "", UseTemplate)

  /** The position of the first campaign with the id, or `|cs|` when there is none. */
  function FirstCampaignIndex(cs: seq<Campaign>, id: string): (k: nat)
    ensures k <= |cs|
    ensures forall j :: 0 <= j < k ==> cs[j].id != id
    ensures k < |cs| ==> cs[k].id == id
    decreases |cs|
  {
    if cs == [] then 0
    else if cs[0].id == id then 0
    else 1 + FirstCampaignIndex(cs[1..], id)
  }

  /** `campaigns.find(c => c.id === id)`: the first campaign with the id, if any. */
  function FindCampaign(cs: seq<Campaign>, id: string): (r: Option<Campaign>)
    ensures r.None? <==> forall i :: 0 <= i < |cs| ==> cs[i].id != id
    ensures r.Some? ==> exists k :: 0 <= k < |cs| && cs[k] == r.value && r.value.id == id
                                    && forall j :: 0 <= j < k ==> cs[j].id != id
  {
    var k := FirstCampaignIndex(cs, id);
    if k < |cs| then Some(cs[k]) else None
  }

  /** With distinct ids, looking up a campaign's id finds that campaign. */
  lemma FindListedCampaign(cs: seq<Campaign>, k: nat)
    requires k < |cs|
    requires forall i, j :: 0 <= i < j < |cs| ==> cs[i].id != cs[j].id
    ensures FindCampaign(cs, cs[k].id) == Some(cs[k])
  {
    var m := FirstCampaignIndex(cs, cs[k].id);
    assert m <= k;
  }

  /**
   * The campaign effect: when the draft names a campaign that exists, its
   * subject and body are copied into the draft; otherwise the draft is left
   * as it is. The channel, recipients, chosen id and mode never change.
   */
  function WithCampaignTemplate(d: MessageDraft, cs: seq<Campaign>): (r: MessageDraft)
    ensures r.channel == d.channel && r.recipients == d.recipients
    ensures r.campaignId == d.campaignId && r.bodyMode == d.bodyMode
    ensures d.campaignId == "" ==> r == d
    ensures (forall i :: 0 <= i < |cs| ==> cs[i].id != d.campaignId) ==> r == d
    ensures d.campaignId != "" && FindCampaign(cs, d.campaignId).Some? ==>
      r.subject == FindCampaign(cs, d.campaignId).value.subject
      && r.body == FindCampaign(cs, d.campaignId).value.body
  {
    if d.campaignId != "" then
      match FindCampaign(cs, d.campaignId)
      case Some(c) => d.(subject := c.subject, body := c.body)
      case None => d
    else d
  }

  /** Running the effect again on its own result changes nothing. */
  lemma TemplateIdempotent(d: MessageDraft, cs: seq<Campaign>)
    ensures WithCampaignTemplate(WithCampaignTemplate(d, cs), cs) == WithCampaignTemplate(d, cs)
  {
  }

  /** Choosing a listed campaign, with ids distinct, shows exactly its subject and body. */
  lemma ChosenCampaignText(d: MessageDraft, cs: seq<Campaign>, k: nat)
    requires k < |cs| && cs[k].id != ""
    requires forall i, j :: 0 <= i < j < |cs| ==> cs[i].id != cs[j].id
    ensures WithCampaignTemplate(d.(campaignId := cs[k].id), cs)
         == d.(campaignId := cs[k].id, subject := cs[k].subject, body := cs[k].body)
  {
    FindListedCampaign(cs, k);
  }

  // ---------------------------------------------------------------------
  // The view
  // ---------------------------------------------------------------------

  class SettingsView {
    var companyProfile: CompanyProfile
    var settingsFormData: CompanyProfile
    var reminderSettings: seq<ReminderSetting>
    var reminderModalOpen: bool
    var editingReminder: Option<ReminderSetting>
    var reminderFormData: ReminderForm
    var messagingModalOpen: bool
    var messageData: MessageDraft
    var campaigns: seq<Campaign>
    var errorLogs: seq<ErrorLog>

    ghost predicate Valid()
      reads this
    {
      UniqueReminderIds(reminderSettings)
    }

    /** The first render: the profile form starts from the profile, every modal closed. */
    constructor (profile: CompanyProfile, reminders: seq<ReminderSetting>,
                 campaigns: seq<Campaign>, logs: seq<ErrorLog>)
      requires UniqueReminderIds(reminders)
      ensures Valid()
      ensures companyProfile == profile && settingsFormData == profile
      ensures reminderSettings == reminders && this.campaigns == campaigns && errorLogs == logs
      ensures !reminderModalOpen && editingReminder == None && reminderFormData == EmptyReminderForm
      ensures !messagingModalOpen && messageData == EmptyDraft
    {
      companyProfile := profile;
      settingsFormData := profile;
      reminderSettings := reminders;
      reminderModalOpen := false;
      editingReminder := None;
      reminderFormData := EmptyReminderForm;
      messagingModalOpen := false;
      messageData := EmptyDraft;
      this.campaigns := campaigns;
      errorLogs := logs;
    }

    /** A new profile arrives: the effect on `companyProfile` resets the form to it. */
    method ReceiveProfile(p: CompanyProfile)
      modifies this`companyProfile, this`settingsFormData
      ensures companyProfile == p && settingsFormData == p
    {
      companyProfile := p;
      settingsFormData := p;
    }

    /** `handleSettingsChange`: only the field the input names takes the typed text. */
    method HandleSettingsChange(f: ProfileField, v: string)
      modifies this`settingsFormData
      ensures settingsFormData == WithField(old(settingsFormData), f, v)
    {
      settingsFormData := WithField(settingsFormData, f, v);
    }

    /** `handleSaveSettings`: the form becomes the profile; the effect then copies it back unchanged. */
    method HandleSaveSettings()
      modifies this`companyProfile, this`settingsFormData
      ensures companyProfile == old(settingsFormData) && settingsFormData == old(settingsFormData)
    {
      ReceiveProfile(settingsFormData);
    }

    /** "Nuova Regola": no rule being edited, an empty form, the modal open. */
    method OpenNewReminder()
      modifies this`editingReminder, this`reminderFormData, this`reminderModalOpen
      ensures editingReminder == None && reminderFormData == EmptyReminderForm && reminderModalOpen
    {
      editingReminder := None;
      reminderFormData := EmptyReminderForm;
      reminderModalOpen := true;
    }

    /** The pencil of a rule: that rule being edited, its fields in the form, the modal open. */
    method OpenEditReminder(r: ReminderSetting)
      modifies this`editingReminder, this`reminderFormData, this`reminderModalOpen
      ensures editingReminder == Some(r) && reminderFormData == FormOf(r) && reminderModalOpen
    {
      editingReminder := Some(r);
      reminderFormData := FormOf(r);
      reminderModalOpen := true;
    }

    /** The modal's close button: only the modal closes. */
    method CloseReminderModal()
      modifies this`reminderModalOpen
      ensures !reminderModalOpen
    {
      reminderModalOpen := false;
    }

    /** The name input. */
    method SetReminderName(text: string)
      modifies this`reminderFormData
      ensures reminderFormData == old(reminderFormData).(name := Some(text))
    {
      reminderFormData := reminderFormData.(name := Some(text));
    }

    /** The warning-days input stores `Number(text)`. */
    method SetPreWarningDays(text: string)
      modifies this`reminderFormData
      ensures reminderFormData == old(reminderFormData).(preWarningDays := Some(TextToNumber(text)))
    {
      reminderFormData := reminderFormData.(preWarningDays := Some(TextToNumber(text)));
    }

    /** The cadence input stores `Number(text)`. */
    method SetCadence(text: string)
      modifies this`reminderFormData
      ensures reminderFormData == old(reminderFormData).(cadence := Some(TextToNumber(text)))
    {
      reminderFormData := reminderFormData.(cadence := Some(TextToNumber(text)));
    }

    /**
     * `handleSaveReminder`: the normalized form updates the rule being edited,
     * or is added under the id the gateway gives it; then the modal closes and
     * no rule is being edited. The form itself is kept.
     */
    method HandleSaveReminder(newId: string)
      requires Valid()
      requires newId !in ReminderIds(reminderSettings)
      modifies this`reminderSettings, this`reminderModalOpen, this`editingReminder
      ensures Valid()
      ensures old(editingReminder).Some? ==>
        reminderSettings == UpdateReminders(old(reminderSettings), old(editingReminder).value.id,
                                            NormalizeReminder(reminderFormData))
      ensures old(editingReminder).None? ==>
        reminderSettings == old(reminderSettings) + [WithId(newId, NormalizeReminder(reminderFormData))]
      ensures !reminderModalOpen && editingReminder == None
    {
      var data := NormalizeReminder(reminderFormData);
      if editingReminder.Some? {
        UpdateKeepsReminderIds(reminderSettings, editingReminder.value.id, data);
        reminderSettings := UpdateReminders(reminderSettings, editingReminder.value.id, data);
      } else {
        var before := reminderSettings;
        reminderSettings := reminderSettings + [WithId(newId, data)];
        forall i | 0 <= i < |before| ensures before[i].id != newId {
          assert before[i] in before;
        }
      }
      reminderModalOpen := false;
      editingReminder := None;
    }

    /** "Componi Nuovo Messaggio". */
    method OpenMessaging()
      modifies this`messagingModalOpen
      ensures messagingModalOpen
    {
      messagingModalOpen := true;
    }

    /** The composer's close button. */
    method CloseMessaging()
      modifies this`messagingModalOpen
      ensures !messagingModalOpen
    {
      messagingModalOpen := false;
    }

    /** The channel select. */
    method SetChannel(c: Channel)
      modifies this`messageData
      ensures messageData == old(messageData).(channel := c)
    {
      messageData := messageData.(channel := c);
    }

    /** The recipients multi-select: the ids of the selected options, in order. */
    method SetRecipients(ids: seq<string>)
      modifies this`messageData
      ensures messageData == old(messageData).(recipients := ids)
    {
      messageData := messageData.(recipients := ids);
    }

    /** The template-or-free-text select; switching does not re-run the campaign effect. */
    method SetBodyMode(m: BodyMode)
      modifies this`messageData
      ensures messageData == old(messageData).(bodyMode := m)
    {
      messageData := messageData.(bodyMode := m);
    }

    /** The free-text subject input. */
    method SetSubject(s: string)
      modifies this`messageData
      ensures messageData == old(messageData).(subject := s)
    {
      messageData := messageData.(subject := s);
    }

    /** The free-text body area. */
    method SetBody(b: string)
      modifies this`messageData
      ensures messageData == old(messageData).(body := b)
    {
      messageData := messageData.(body := b);
    }

    /**
     * The campaign select and the effect on `campaignId`: a changed id is
     * stored and, when it names a campaign, that campaign's subject and body
     * are copied; choosing the id already chosen leaves the text as it is.
     */
    method SelectCampaign(id: string)
      modifies this`messageData
      ensures id != old(messageData).campaignId ==>
        messageData == WithCampaignTemplate(old(messageData).(campaignId := id), campaigns)
      ensures id == old(messageData).campaignId ==> messageData == old(messageData)
    {
      if id != messageData.campaignId {
        messageData := WithCampaignTemplate(messageData.(campaignId := id), campaigns);
      }
    }

    /** A new campaign list arrives: the effect on `campaigns` re-applies the chosen template. */
    method ReceiveCampaigns(cs: seq<Campaign>)
      modifies this`campaigns, this`messageData
      ensures campaigns == cs
      ensures messageData == WithCampaignTemplate(old(messageData), cs)
    {
      campaigns := cs;
      messageData := WithCampaignTemplate(messageData, cs);
    }

    /** `downloadErrorLog`: the CSV text offered for download, or nothing when there are no logs. */
    method DownloadErrorLog() returns (csv: Option<string>)
      ensures csv == ExportCsv(errorLogs)
      ensures csv.None? <==> errorLogs == []
    {
      if |errorLogs| == 0 {
        return None;
      }
      var header := Join(HeaderFields, ",");
      var rows := RowLines(errorLogs);
      csv := Some(header + Crlf + Join(rows, Crlf));
    }
  }
}
