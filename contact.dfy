/** The contact form: three text fields, a four-valued status, the pending
    timers that return the status to idle, and the calls made to the e-mail
    relay. The relay's answer and the firing of a timer arrive as events. */
module ContactForm {

  datatype Status = Idle | Sending | Success | Error

  datatype Fields = Fields(name: string, email: string, message: string)

  const NoFields := Fields("", "", "")

  /** The environment settings the form reads; "" stands for a variable that is
      unset, since the source treats an unset and an empty value alike. */
  datatype Config = Config(serviceId: string, templateId: string, publicKey: string, ownerName: string)

  /** The template parameters handed to the relay's `send`. */
  datatype TemplateParams = TemplateParams(fromName: string, fromEmail: string, toName: string, message: string)

  /** A pending `setTimeout`: its delay and whether it also hides the form. */
  datatype Timer = Timer(delayMs: nat, hidesForm: bool)

  /** Delay after a validation error. */
  const FieldErrorResetMs: nat := 4000
  /** Delay after a configuration, script or relay error, and after success. */
  const RelayResetMs: nat := 5000

  /** The recipient name: the owner's name, or "Name" when it is unset. */
  function RecipientName(ownerName: string): (r: string)
    ensures r != ""
    ensures ownerName != "" ==> r == ownerName
    ensures ownerName == "" ==> r == "Name"
  {
    if ownerName != "" then ownerName else "Name"
  }

  predicate AllFilled(f: Fields)
  {
    f.name != "" && f.email != "" && f.message != ""
  }

  predicate ConfigComplete(c: Config)
  {
    c.serviceId != "" && c.templateId != "" && c.publicKey != ""
  }

  /** How a press of "Send" ends, given the fields, the configuration and
      whether the relay script has loaded. The checks are made in this order. */
  datatype SubmitOutcome = MissingField | MissingConfig | ScriptNotLoaded | Send(params: TemplateParams)

  function SubmitOutcomeOf(f: Fields, c: Config, scriptLoaded: bool): (o: SubmitOutcome)
    ensures o == MissingField <==> !AllFilled(f)
    ensures o == MissingConfig <==> AllFilled(f) && !ConfigComplete(c)
    ensures o == ScriptNotLoaded <==> AllFilled(f) && ConfigComplete(c) && !scriptLoaded
    ensures o.Send? <==> AllFilled(f) && ConfigComplete(c) && scriptLoaded
    ensures o.Send? ==>
      o.params == TemplateParams(f.name, f.email, RecipientName(c.ownerName), f.message)
  {
    if !AllFilled(f) then MissingField
    else if !ConfigComplete(c) then MissingConfig
    else if !scriptLoaded then ScriptNotLoaded
    else Send(TemplateParams(f.name, f.email, RecipientName(c.ownerName), f.message))
  }

  /** `setFormData(prev => ({...prev, [name]: value}))` restricted to the three
      fields the form has: a change event for any other name leaves them alone. */
  function UpdateField(f: Fields, name: string, value: string): (r: Fields)
    ensures r.name == (if name == "name" then value else f.name)
    ensures r.email == (if name == "email" then value else f.email)
    ensures r.message == (if name == "message" then value else f.message)
  {
    if name == "name" then f.(name := value)
    else if name == "email" then f.(email := value)
    else if name == "message" then f.(message := value)
    else f
  }

  /** Typing into the same field twice keeps only the second value. */
  lemma UpdateFieldLastWins(f: Fields, name: string, v1: string, v2: string)
    ensures UpdateField(UpdateField(f, name, v1), name, v2) == UpdateField(f, name, v2)
  {
  }

  /** Changes to two different fields do not interfere. */
  lemma UpdateFieldCommutes(f: Fields, n1: string, v1: string, n2: string, v2: string)
    requires n1 != n2
    ensures UpdateField(UpdateField(f, n1, v1), n2, v2) == UpdateField(UpdateField(f, n2, v2), n1, v1)
  {
  }

  /** The submit button is disabled exactly while a send is under way. */
  predicate SubmitDisabled(s: Status)
    ensures SubmitDisabled(s) <==> ButtonLabel(s) == "Sending..."
  {
    s == Sending
  }

  /** The submit button's text. Note that a relay failure shows the same text
      as an empty field. */
  function ButtonLabel(s: Status): (r: string)
    ensures r == "Send Message" <==> s == Idle
    ensures r == "Sending..." <==> s == Sending
    ensures r == "Message Sent!" <==> s == Success
    ensures r == "Please fill all fields" <==> s == Error
  {
    match s
    case Idle => "Send Message"
    case Sending => "Sending..."
    case Success => "Message Sent!"
    case Error => "Please fill all fields"
  }

  /** The sequence with its `k`-th element taken out. */
  function RemoveAt<T>(s: seq<T>, k: nat): (r: seq<T>)
    requires k < |s|
    ensures |r| == |s| - 1
    ensures forall j :: 0 <= j < k ==> r[j] == s[j]
    ensures forall j :: k <= j < |r| ==> r[j] == s[j + 1]
  {
    s[..k] + s[k + 1..]
  }

  class Form {
    var fields: Fields
    var status: Status
    var showForm: bool
    /** The timers set and not yet fired, in the order they were set. */
    var timers: seq<Timer>
    /** Every call made to the relay's `send`, in order. */
    var sent: seq<TemplateParams>
    /** Sends whose outcome has not arrived yet. */
    var inFlight: nat
    /** Sends whose outcome has arrived. */
    ghost var settled: nat
    /** Every status the form has been set to, in order. */
    ghost var trail: seq<Status>

    ghost predicate Valid()
      reads this
    {
      && inFlight + settled == |sent|
      && (status == Sending ==> inFlight > 0)
      && (trail == [] ==> status == Idle)
      && (trail != [] ==> trail[|trail| - 1] == status)
    }

    constructor ()
      ensures Valid()
      ensures fields == NoFields && status == Idle && !showForm
      ensures timers == [] && sent == [] && inFlight == 0 && trail == []
    {
      fields := NoFields;
      status := Idle;
      showForm := false;
      timers := [];
      sent := [];
      inFlight := 0;
      settled := 0;
      trail := [];
    }

    /** The form's `onSubmit`. */
    method HandleSubmit(c: Config, scriptLoaded: bool)
      requires Valid()
      modifies this
      ensures Valid()
      ensures fields == old(fields) && showForm == old(showForm) && settled == old(settled)
      ensures match SubmitOutcomeOf(old(fields), c, scriptLoaded)
        case MissingField =>
          && status == Error && trail == old(trail) + [Error]
          && timers == old(timers) + [Timer(FieldErrorResetMs, false)]
          && sent == old(sent) && inFlight == old(inFlight)
        case MissingConfig =>
          && status == Error && trail == old(trail) + [Sending, Error]
          && timers == old(timers) + [Timer(RelayResetMs, false)]
          && sent == old(sent) && inFlight == old(inFlight)
        case ScriptNotLoaded =>
          && status == Error && trail == old(trail) + [Sending, Error]
          && timers == old(timers) + [Timer(RelayResetMs, false)]
          && sent == old(sent) && inFlight == old(inFlight)
        case Send(p) =>
          && status == Sending && trail == old(trail) + [Sending]
          && timers == old(timers)
          && sent == old(sent) + [p] && inFlight == old(inFlight) + 1
    {
      if fields.name == "" || fields.email == "" || fields.message == "" {
        SetStatus(Error);
        timers := timers + [Timer(FieldErrorResetMs, false)];
        return;
      }
      SetStatus(Sending);
      if c.serviceId == "" || c.templateId == "" || c.publicKey == "" {
        SetStatus(Error);
        timers := timers + [Timer(RelayResetMs, false)];
        return;
      }
      var params := TemplateParams(fields.name, fields.email, RecipientName(c.ownerName), fields.message);
      if scriptLoaded {
        sent := sent + [params];
        inFlight := inFlight + 1;
      } else {
        SetStatus(Error);
        timers := timers + [Timer(RelayResetMs, false)];
      }
    }

    /** `setFormStatus`, recording the new status in the trail. */
    method SetStatus(s: Status)
      modifies this
      ensures status == s && trail == old(trail) + [s]
      ensures fields == old(fields) && showForm == old(showForm) && timers == old(timers)
      ensures sent == old(sent) && inFlight == old(inFlight) && settled == old(settled)
    {
      status := s;
      trail := trail + [s];
    }

    /** The relay reports that a message was delivered: the fields are cleared
        and a timer is set that returns to idle and hides the form. */
    method OnRelaySuccess()
      requires Valid() && inFlight > 0
      modifies this
      ensures Valid()
      ensures status == Success && trail == old(trail) + [Success]
      ensures fields == NoFields && showForm == old(showForm)
      ensures timers == old(timers) + [Timer(RelayResetMs, true)]
      ensures sent == old(sent) && inFlight == old(inFlight) - 1
    {
      inFlight := inFlight - 1;
      settled := settled + 1;
      SetStatus(Success);
      fields := NoFields;
      timers := timers + [Timer(RelayResetMs, true)];
    }

    /** The relay reports a failure: the fields stay as they are. */
    method OnRelayFailure()
      requires Valid() && inFlight > 0
      modifies this
      ensures Valid()
      ensures status == Error && trail == old(trail) + [Error]
      ensures fields == old(fields) && showForm == old(showForm)
      ensures timers == old(timers) + [Timer(RelayResetMs, false)]
      ensures sent == old(sent) && inFlight == old(inFlight) - 1
    {
      inFlight := inFlight - 1;
      settled := settled + 1;
      SetStatus(Error);
      timers := timers + [Timer(RelayResetMs, false)];
    }

    /** The `k`-th pending timer fires: the status returns to idle, and the
        form is hidden if it was the timer set on success. */
    method TimerFires(k: nat)
      requires Valid() && k < |timers|
      modifies this
      ensures Valid()
      ensures status == Idle && trail == old(trail) + [Idle]
      ensures timers == RemoveAt(old(timers), k)
      ensures showForm == (old(showForm) && !old(timers)[k].hidesForm)
      ensures fields == old(fields) && sent == old(sent) && inFlight == old(inFlight)
    {
      var t := timers[k];
      timers := RemoveAt(timers, k);
      SetStatus(Idle);
      if t.hidesForm {
        showForm := false;
      }
    }

    /** The `onChange` of an input: only the field with that name changes. */
    method HandleInputChange(name: string, value: string)
      requires Valid()
      modifies this
      ensures Valid()
      ensures fields == UpdateField(old(fields), name, value)
      ensures status == old(status) && showForm == old(showForm) && timers == old(timers)
      ensures sent == old(sent) && inFlight == old(inFlight) && trail == old(trail)
    {
      fields := UpdateField(fields, name, value);
    }

    /** The buttons that turn the card to the form side and back. */
    method SetShowForm(show: bool)
      requires Valid()
      modifies this
      ensures Valid()
      ensures showForm == show
      ensures fields == old(fields) && status == old(status) && timers == old(timers)
      ensures sent == old(sent) && inFlight == old(inFlight) && trail == old(trail)
    {
      showForm := show;
    }
  }

  /** While the button is disabled, a send really is under way. */
  lemma DisabledOnlyWhileSending(form: Form)
    requires form.Valid()
    ensures SubmitDisabled(form.status) ==> form.inFlight > 0
  {
  }

}
