/** The intake wizard `request_wizard`: eight step handlers over the draft
    `ctx.session.request` and a cursor that `ctx.wizard.next()` moves one
    on and `ctx.wizard.selectStep(n)` sets. The handlers are modelled as they
    are written, not as the flow their prompts describe: the service, area,
    address and date-choice handlers move on whatever arrives, and every
    date choice, not only "manual", moves on to the typed-date handler. */
module Wizard {
  import opened Text
  import opened Callbacks
  import opened Requests
  import opened Store

  /** The library calls and clock-derived text the handlers use, as parameters. */
  datatype Platform = Platform(
    trim: string -> string,             // String.prototype.trim
    length: string -> nat,              // String.prototype.length
    parseArea: string -> Option<real>,  // parseFloat(t) when !isNaN(t), None for NaN
    lower: string -> string,            // String.prototype.toLowerCase
    today: string,                      // today's date by toLocaleDateString('ru-RU', ...)
    tomorrow: string)                   // tomorrow's date, formatted the same way

  /** The update a step handler receives: a message (its text, or "" when it
      has none, which the handlers treat as no text), a button press that no
      scene action took, or anything else. */
  datatype Input = Message(text: string) | Press(data: string) | Other

  /** `ctx.message && ctx.message.text`. */
  function TextOf(input: Input): Option<string>
  {
    if input.Message? && input.text != "" then Some(input.text) else None
  }

  /** The wizard cursor: the index of the handler the next update goes to. */
  type Cursor = c: nat | c <= 7

  const StartStep: Cursor := 0
  const ServiceStep: Cursor := 1
  const AreaStep: Cursor := 2
  const AddressStep: Cursor := 3
  const DateChoiceStep: Cursor := 4
  const ManualDateStep: Cursor := 5
  const ContactsStep: Cursor := 6
  const CommentStep: Cursor := 7

  const SkipWord := "пропустить"

  /** The area handler's check `!isNaN(area) && parseFloat(area) > 0` on the trimmed text. */
  predicate AreaAccepted(p: Platform, t: string)
  {
    p.parseArea(p.trim(t)).Some? && p.parseArea(p.trim(t)).value > 0.0
  }

  /** The date-choice handler's `switch` on `data.split('_')[2]`; an
      unknown choice leaves the date as it was. */
  function ChooseDate(p: Platform, d: Draft, data: string): Draft
  {
    match Field(data, '_', 2)
    case Some(choice) =>
      if choice == "today" then d.(datetime := Some("Сегодня, " + p.today))
      else if choice == "tomorrow" then d.(datetime := Some("Завтра, " + p.tomorrow))
      else if choice == "week" then d.(datetime := Some("На этой неделе"))
      else if choice == "nextweek" then d.(datetime := Some("На следующей неделе"))
      else if choice == "manual" then d.(datetime := Some(""))
      else d
    case None => d
  }

  /** One step handler, chosen by the cursor, applied to one update. */
  function Step(p: Platform, c: Cursor, d: Draft, input: Input): (r: (Cursor, Draft))
    ensures r.0 == c || r.0 == c + 1
  {
    if c == StartStep then
      (ServiceStep, EmptyDraft)
    else if c == ServiceStep then
      (AreaStep, if input.Press? then d.(service := ServiceOf(input.data)) else d)
    else if c == AreaStep then
      (AddressStep,
       match TextOf(input)
       case Some(t) => if AreaAccepted(p, t) then d.(area := Some(p.parseArea(p.trim(t)).value)) else d
       case None => d)
    else if c == AddressStep then
      (DateChoiceStep,
       match TextOf(input)
       case Some(t) => if p.length(p.trim(t)) > 5 then d.(address := Some(p.trim(t))) else d
       case None => d)
    else if c == DateChoiceStep then
      (ManualDateStep, if input.Press? then ChooseDate(p, d, input.data) else d)
    else if c == ManualDateStep then
      match TextOf(input)
      case Some(t) =>
        if p.length(p.trim(t)) > 3 then (ContactsStep, d.(datetime := Some(p.trim(t)))) else (c, d)
      case None => (c, d)
    else if c == ContactsStep then
      match TextOf(input)
      case Some(t) =>
        if p.length(p.trim(t)) > 5 then (CommentStep, d.(contacts := Some(p.trim(t)))) else (c, d)
      case None => (c, d)
    else
      match TextOf(input)
      case Some(t) => (c, if p.lower(t) != SkipWord then d.(comment := Some(p.trim(t))) else d)
      case None => (c, d)
  }

  /** The scene action for `^req_service_\d+`: `ctx.session.request || {}`
      gets the service, and `selectStep(2)` sends the next update to the area handler. */
  function ServiceShortcut(d: Option<Draft>, data: string): (r: (Cursor, Draft))
    ensures r.0 == AreaStep && r.1.service == ServiceOf(data)
    ensures d.Some? ==> r.1.(service := d.value.service) == d.value
    ensures d.None? ==> r.1.(service := None) == EmptyDraft
  {
    var base := if d.Some? then d.value else EmptyDraft;
    (AreaStep, base.(service := ServiceOf(data)))
  }

  /** The handlers applied to a run of updates in turn. */
  function Run(p: Platform, c: Cursor, d: Draft, inputs: seq<Input>): (r: (Cursor, Draft))
    ensures c <= r.0 <= c + |inputs|
    decreases |inputs|
  {
    if inputs == [] then (c, d)
    else
      var next := Step(p, c, d, inputs[0]);
      Run(p, next.0, next.1, inputs[1..])
  }

  /** The service handler moves on whatever arrives, and only a button press sets the service. */
  lemma ServiceStepAlwaysAdvances(p: Platform, d: Draft, input: Input)
    ensures Step(p, ServiceStep, d, input).0 == AreaStep
    ensures Step(p, ServiceStep, d, input).1 == if input.Press? then d.(service := ServiceOf(input.data)) else d
  {
  }

  /** The shortcut action leaves the draft as a press reaching the service handler would. */
  lemma ShortcutMatchesServiceStep(p: Platform, d: Draft, data: string)
    ensures ServiceShortcut(Some(d), data) == Step(p, ServiceStep, d, Press(data))
  {
  }

  /** Each of the five service buttons puts its own service in the draft. */
  lemma ServiceButtonsSelectService(d: Option<Draft>, n: nat)
    requires n < |Services|
    ensures ServiceShortcut(d, ServiceData(n)).1.service == Some(Services[n])
  {
    ServiceRoundTrip(n);
  }

  /** The area handler moves on in every case; it writes the area only for a
      text that parses to a positive number, and writes nothing else. */
  lemma AreaStepAlwaysAdvances(p: Platform, d: Draft, input: Input)
    ensures Step(p, AreaStep, d, input).0 == AddressStep
    ensures Step(p, AreaStep, d, input).1.(area := d.area) == d
    ensures Step(p, AreaStep, d, input).1.area ==
      if TextOf(input).Some? && AreaAccepted(p, input.text) then Some(p.parseArea(p.trim(input.text)).value) else d.area
  {
  }

  /** The address handler moves on in every case; it writes the trimmed
      address only when that is longer than 5, and writes nothing else. */
  lemma AddressStepAlwaysAdvances(p: Platform, d: Draft, input: Input)
    ensures Step(p, AddressStep, d, input).0 == DateChoiceStep
    ensures Step(p, AddressStep, d, input).1.(address := d.address) == d
    ensures Step(p, AddressStep, d, input).1.address ==
      if TextOf(input).Some? && p.length(p.trim(input.text)) > 5 then Some(p.trim(input.text)) else d.address
  {
  }

  /** The date-choice handler moves on to the typed-date handler whatever
      arrives, and changes nothing but the date. */
  lemma DateChoiceAlwaysAdvances(p: Platform, d: Draft, input: Input)
    ensures Step(p, DateChoiceStep, d, input).0 == ManualDateStep
    ensures Step(p, DateChoiceStep, d, input).1.(datetime := d.datetime) == d
  {
  }

  /** `split('_')[2]` of a date button's data is the choice it names. */
  lemma DateField(choice: string)
    requires '_' !in choice
    ensures Field("req_dt_" + choice, '_', 2) == Some(choice)
  {
    var parts := ["req", "dt", choice];
    JoinThree("req", "dt", choice, '_');
    assert "req" + ['_'] + "dt" + ['_'] + choice == "req_dt_" + choice;
    SplitJoin(parts, '_');
  }

  /** What each of the five date buttons `req_dt_<choice>` writes. */
  lemma DateButtonRecordsChoice(p: Platform, d: Draft, choice: string)
    requires '_' !in choice
    ensures
      var dt := Step(p, DateChoiceStep, d, Press("req_dt_" + choice)).1.datetime;
      && (choice == "today" ==> dt == Some("Сегодня, " + p.today))
      && (choice == "tomorrow" ==> dt == Some("Завтра, " + p.tomorrow))
      && (choice == "week" ==> dt == Some("На этой неделе"))
      && (choice == "nextweek" ==> dt == Some("На следующей неделе"))
      && (choice == "manual" ==> dt == Some(""))
      && (choice !in {"today", "tomorrow", "week", "nextweek", "manual"} ==> dt == d.datetime)
  {
    DateField(choice);
  }

  /** After a fixed date choice the next text message, whatever the prompt
      asked for, goes to the typed-date handler and replaces the chosen date. */
  lemma FixedDateReplacedByNextMessage(p: Platform, d: Draft, choice: string, t: string)
    requires choice in {"today", "tomorrow", "week", "nextweek"}
    requires t != "" && p.length(p.trim(t)) > 3
    ensures
      var chosen := Step(p, DateChoiceStep, d, Press("req_dt_" + choice));
      && chosen.0 == ManualDateStep
      && Step(p, chosen.0, chosen.1, Message(t)) == (ContactsStep, chosen.1.(datetime := Some(p.trim(t))))
  {
    DateField(choice);
  }

  /** The typed-date handler stores the trimmed text and moves on only when
      it is longer than 3; otherwise cursor and draft stay as they are. */
  lemma ManualDateStepGuard(p: Platform, d: Draft, input: Input)
    ensures
      var r := Step(p, ManualDateStep, d, input);
      if TextOf(input).Some? && p.length(p.trim(input.text)) > 3
      then r == (ContactsStep, d.(datetime := Some(p.trim(input.text))))
      else r == (ManualDateStep, d)
  {
  }

  /** The contacts handler stores the trimmed text and moves on only when
      it is longer than 5; otherwise cursor and draft stay as they are. */
  lemma ContactsStepGuard(p: Platform, d: Draft, input: Input)
    ensures
      var r := Step(p, ContactsStep, d, input);
      if TextOf(input).Some? && p.length(p.trim(input.text)) > 5
      then r == (CommentStep, d.(contacts := Some(p.trim(input.text))))
      else r == (ContactsStep, d)
  {
  }

  /** The comment handler never moves the cursor; the skip word, compared
      after lower-casing, leaves the comment as it was, and any other text is
      stored trimmed. */
  lemma CommentStepKeepsCursor(p: Platform, d: Draft, input: Input)
    ensures Step(p, CommentStep, d, input).0 == CommentStep
    ensures Step(p, CommentStep, d, input).1 ==
      if TextOf(input).Some? && p.lower(input.text) != SkipWord then d.(comment := Some(p.trim(input.text))) else d
  {
  }

  /** The session of one user: whether the wizard scene is active, its
      cursor, and `ctx.session.request`, which outlives the scene. */
  class Session {
    var active: bool
    var cursor: Cursor
    var draft: Option<Draft>

    /** An active wizard has run its first handler, so it has a draft and
        its cursor is past the first handler. */
    ghost predicate Valid()
      reads this
    {
      active ==> cursor >= 1 && draft.Some?
    }

    constructor ()
      ensures Valid() && !active && draft == None
    {
      active := false;
      cursor := 0;
      draft := None;
    }

    /** `ctx.scene.enter('request_wizard')`: the cursor starts at 0 and the
        first handler runs at once, resetting the draft to `{}`. */
    method Enter(p: Platform)
      modifies this
      ensures Valid() && active
      ensures (cursor, draft) == (Step(p, StartStep, EmptyDraft, Other).0, Some(EmptyDraft))
    {
      active := true;
      cursor := StartStep;
      var next := Step(p, cursor, if draft.Some? then draft.value else EmptyDraft, Other);
      cursor, draft := next.0, Some(next.1);
    }

    /** An update that no scene action takes goes to the handler at the cursor. */
    method Handle(p: Platform, input: Input)
      requires Valid() && active
      modifies this
      ensures Valid() && active
      ensures (cursor, draft.value) == Step(p, old(cursor), old(draft.value), input)
    {
      var next := Step(p, cursor, draft.value, input);
      cursor, draft := next.0, Some(next.1);
    }

    /** The scene action for a service button. */
    method PressService(data: string)
      requires Valid() && active
      modifies this
      ensures Valid() && active
      ensures (cursor, draft.value) == ServiceShortcut(old(draft), data)
    {
      var next := ServiceShortcut(draft, data);
      cursor, draft := next.0, Some(next.1);
    }

    /** `ctx.scene.leave()`: the cursor is dropped with the scene; the draft stays. */
    method Leave()
      modifies this
      ensures Valid() && !active && cursor == 0 && draft == old(draft)
    {
      active := false;
      cursor := 0;
    }

    /** The `req_confirm` action, at whatever step it is pressed: the draft
        as it stands becomes a new request, then the scene ends. */
    method Confirm(store: RequestStore, id: nat, userId: int, username: Option<string>, firstName: Option<string>, createdAt: int)
      returns (r: Request)
      requires Valid() && active
      modifies this, store
      ensures store.requests == old(store.requests) + [r]
      ensures r == Request(id, userId, DisplayName(username, firstName), createdAt, StatusNew, old(draft.value))
      ensures Valid() && !active && cursor == 0 && draft == old(draft)
    {
      r := store.Create(draft.value, id, userId, username, firstName, createdAt);
      Leave();
    }

    /** The `req_cancel` action: the scene ends and nothing is stored. */
    method Cancel()
      requires Valid() && active
      modifies this
      ensures Valid() && !active && cursor == 0 && draft == old(draft)
    {
      Leave();
    }

    /** The `req_edit` action: the scene ends, nothing is stored, and the
        customer is told to start again. */
    method Edit()
      requires Valid() && active
      modifies this
      ensures Valid() && !active && cursor == 0 && draft == old(draft)
    {
      Leave();
    }
  }
}
