/**
 * The login state machine. The server is an arbitrary script of answers; the
 * session must always be in a flow that fits the challenge it last returned.
 */
module Login {
  import opened Options

  datatype SmsMode = WithAuthId | WithoutAuthId | Custom

  datatype Service = Complete | AuthCheck | Sms | CustomSms | Other

  datatype AuthIdItem = AuthIdItem(authId: string, authType: string)
  datatype StepData = StepData(nextService: string, list: seq<AuthIdItem>)
  datatype AuthStep = AuthStep(service: string, authId: string, mode: Option<SmsMode>)

  datatype Flow =
    | Password(user: string)
    | Step(step: AuthStep)
    | SmsLogin(phone: string)
    | SmsVerify(phone: string, code: string)

  datatype Challenge = NeedCaptcha | NeedSmsCode(authId: string) | Done(username: string, sid: string)

  datatype Error =
    | Failed                    // no usable answer, or one that refuses
    | NoPending
    | CaptchaNotExpected
    | PasswordPending
    | TicketEmpty
    | UnsupportedService
    | ChainTooLong
    | NotLoggedIn
    | MissingMode               // these two are never returned
    | InvalidStep

  datatype Result<+T> = Ok(value: T) | Err(error: Error)

  /** A parsed answer; each request uses the fields it knows. */
  datatype Body = Body(code: int, captcha: int, ticket: string, step: StepData, username: string, isLogin: bool)

  /** One answer: the session cookie it may set, and its body unless the exchange failed. */
  datatype Answer = Answer(sid: Option<string>, body: Option<Body>)

  datatype Request =
    | AuthConfigGet | PasswordPost | SendSms | SmsCheckCode | CaptchaGet | ReportEnv(ticket: string)
    | AuthCheckGet | PhoneNumber | TriggerSms | SmsCheck(skip: bool) | SendCustomSms | CustomSmsCheck(skip: bool)
    | OnlineInfo | CallbackGet

  const SMS_PENDING := 75_500_401

  function ServiceOf(service: string): (s: Service) {
    if service == "" then Complete
    else if service == "auth/authCheck" then AuthCheck
    else if service == "auth/sms" then Sms
    else if service == "auth/customSms" then CustomSms
    else Other
  }

  function Find(list: seq<AuthIdItem>, service: string): (item: Option<AuthIdItem>) {
    if list == [] then None
    else if service != "" && list[0].authType == service then Some(list[0])
    else Find(list[1..], service)
  }

  function ModeOf(service: string, authId: string): (mode: Option<SmsMode>) {
    match ServiceOf(service)
    case Sms => Some(if authId == "" then WithoutAuthId else WithAuthId)
    case CustomSms => Some(Custom)
    case _ => None
  }

  /** `auth_step_from_data`. */
  function StepFrom(data: StepData): (step: AuthStep)
    ensures step.mode == ModeOf(step.service, step.authId)
  {
    var found := Find(data.list, data.nextService);
    var selected := if found.Some? then found else if data.list != [] then Some(data.list[0]) else None;
    var authId := if selected.Some? then selected.value.authId else "";
    var named := if data.nextService == "" && selected.Some? then selected.value.authType else data.nextService;
    var service := if named == "" && authId != "" then "auth/sms" else named;
    AuthStep(service, authId, ModeOf(service, authId))
  }

  /** Item `i` is the first of the named service, or the first of all when there is none. */
  predicate Selected(data: StepData, i: nat)
    requires i < |data.list|
  {
    var none := data.nextService == ""
                || forall j :: 0 <= j < |data.list| ==> data.list[j].authType != data.nextService;
    if none then i == 0
    else data.list[i].authType == data.nextService
         && forall j :: 0 <= j < i ==> data.list[j].authType != data.nextService
  }

  lemma {:induction false} FindsFirst(list: seq<AuthIdItem>, service: string, i: nat)
    requires i < |list| && service != "" && list[i].authType == service
    requires forall j :: 0 <= j < i ==> list[j].authType != service
    ensures Find(list, service) == Some(list[i])
  {
    if i > 0 { FindsFirst(list[1..], service, i - 1); }
  }

  lemma {:induction false} FindsNone(list: seq<AuthIdItem>, service: string)
    requires service == "" || forall j :: 0 <= j < |list| ==> list[j].authType != service
    ensures Find(list, service) == None
  {
    if list != [] { FindsNone(list[1..], service); }
  }

  lemma SelectedExists(data: StepData) returns (i: nat)
    requires data.list != []
    ensures i < |data.list| && Selected(data, i)
  {
    i := 0;
    while i < |data.list| && data.list[i].authType != data.nextService
      invariant i <= |data.list|
      invariant forall j :: 0 <= j < i ==> data.list[j].authType != data.nextService
    {
      i := i + 1;
    }
    if data.nextService == "" || i == |data.list| { i := 0; }
  }

  /** The step an item makes: its id, and its service when the answer names none. */
  predicate MadeFrom(step: AuthStep, data: StepData, item: AuthIdItem) {
    && step.authId == item.authId
    && step.service == (if data.nextService != "" then data.nextService
                        else if item.authType != "" then item.authType
                        else if item.authId != "" then "auth/sms" else "")
    && step.mode == ModeOf(step.service, step.authId)
  }

  lemma SelectedMakes(data: StepData, i: nat)
    requires i < |data.list| && Selected(data, i)
    ensures MadeFrom(StepFrom(data), data, data.list[i])
  {
    if data.nextService == "" || forall j :: 0 <= j < |data.list| ==> data.list[j].authType != data.nextService {
      FindsNone(data.list, data.nextService);
    } else {
      FindsFirst(data.list, data.nextService, i);
    }
  }

  /** Every answer's step is made from the item it selects, or from its service alone when it lists none. */
  lemma StepSelects(data: StepData)
    ensures data.list == [] ==> StepFrom(data) == AuthStep(data.nextService, "", ModeOf(data.nextService, ""))
    ensures data.list != [] ==>
              exists i :: 0 <= i < |data.list| && Selected(data, i) && MadeFrom(StepFrom(data), data, data.list[i])
  {
    if data.list != [] {
      var i := SelectedExists(data);
      SelectedMakes(data, i);
    }
  }

  /** A second factor is asked for exactly when the answer names a service or an id. */
  lemma StepCompletes(data: StepData)
    ensures ServiceOf(StepFrom(data).service).Complete? <==>
              data.nextService == "" && (data.list == [] || (data.list[0].authType == "" && data.list[0].authId == ""))
  {
    if data.list != [] && data.nextService == "" { SelectedMakes(data, 0); }
  }

  predicate TakesCaptcha(f: Flow) {
    !f.Step?
  }

  predicate TakesSmsCode(f: Flow) {
    f.Step? && f.step.mode.Some?
  }

  /** The pending flow fits the challenge. */
  predicate Fits(c: Challenge, pending: Option<Flow>) {
    match c
    case NeedCaptcha => pending.Some? && TakesCaptcha(pending.value)
    case NeedSmsCode(authId) => pending.Some? && TakesSmsCode(pending.value) && pending.value.step.authId == authId
    case Done(_, _) => pending.None?
  }

  /** How many `authCheck` requests there are. */
  function Checks(asked: seq<Request>): (n: nat) {
    if asked == [] then 0
    else Checks(asked[..|asked| - 1]) + if asked[|asked| - 1].AuthCheckGet? then 1 else 0
  }

  datatype Session = Session(username: string, sid: string)

  datatype Call =
    | PasswordCall(user: string)
    | SmsCall(phone: string)
    | CaptchaCall(text: string)
    | CodeCall(text: string)
    | CallbackCall(reset: bool)
    | PrepareCall
    | ResumeCall(user: string, session: string, cookie: Option<string>)

  /** One call of a run: what it returned and the flow it left. */
  datatype Event = Event(call: Call, result: Option<Result<Challenge>>, pending: Option<Flow>)

  predicate Impossible(e: Error) {
    e.MissingMode? || e.InvalidStep?
  }

  /**
   * The call returned a challenge its flow fits, no impossible error, and
   * refused its input exactly in a flow that does not take it.
   */
  predicate Sound(before: Option<Flow>, e: Event) {
    e.result.Some? ==>
      var r := e.result.value;
      && (r.Ok? ==> Fits(r.value, e.pending))
      && (r.Err? ==> !Impossible(r.error))
      && (e.call.CaptchaCall? ==> (r == Err(NoPending) <==> before.None?)
                                  && (r == Err(CaptchaNotExpected) <==> before.Some? && before.value.Step?))
      && (e.call.CodeCall? ==> (r == Err(NoPending) <==> before.None?)
                               && (r == Err(PasswordPending) <==> before.Some? && before.value.Password?))
  }

  class AuthSession {
    var pending: Option<Flow>
    var ticket: string
    var sid: string
    var username: string
    var sidCookie: Option<string>
    /** What the server will answer, in order; after that, nothing. */
    var answers: seq<Answer>
    ghost var asked: seq<Request>
    /** What the server last said comes next. */
    ghost var lastStep: Option<AuthStep>

    /** A pending step knows how its code is checked. */
    ghost predicate Valid()
      reads this
    {
      pending.Some? && pending.value.Step? ==> pending.value.step.mode.Some?
    }

    constructor (answers: seq<Answer>)
      ensures Valid() && pending == None && this.answers == answers
    {
      pending, ticket, sid, username, sidCookie := None, "", "", "", None;
      this.answers, asked, lastStep := answers, [], None;
    }

    method Ask(r: Request) returns (body: Option<Body>)
      modifies this`answers, this`sidCookie, this`asked
      ensures asked == old(asked) + [r] && Checks(asked) == old(Checks(asked)) + if r.AuthCheckGet? then 1 else 0
    {
      body := None;
      if answers != [] {
        if answers[0].sid.Some? {
          sidCookie := answers[0].sid;
        }
        body := answers[0].body;
        answers := answers[1..];
      }
      asked := asked + [r];
      assert asked[..|asked| - 1] == old(asked);
    }

    method SyncSid()
      modifies this`sid
      ensures sid == if sidCookie.Some? then sidCookie.value else old(sid)
    {
      if sidCookie.Some? {
        sid := sidCookie.value;
      }
    }

    method ResetIdentity()
      modifies this`ticket, this`sid, this`username, this`pending
      ensures pending == None && ticket == sid == username == ""
    {
      ticket, sid, username, pending := "", "", "", None;
    }

    method AuthCheck() returns (r: Result<AuthStep>)
      modifies this`answers, this`sidCookie, this`asked, this`lastStep
      ensures Checks(asked) == old(Checks(asked)) + 1
      ensures r.Ok? ==> r.value.mode == ModeOf(r.value.service, r.value.authId) && lastStep == Some(r.value)
    {
      var body := Ask(AuthCheckGet);
      if body.None? || body.value.code != 0 {
        return Err(Failed);
      }
      r := Ok(StepFrom(body.value.step));
      lastStep := Some(r.value);
    }

    method CompleteLogin() returns (r: Result<Challenge>)
      modifies this`pending, this`username, this`sid, this`answers, this`sidCookie, this`asked
      ensures Checks(asked) == old(Checks(asked)) && pending == None
      ensures r.Ok? ==> r.value == Done(username, sid)
      ensures r.Err? ==> r.error == Failed
    {
      pending := None;
      var body := Ask(OnlineInfo);
      if body.None? {
        return Err(Failed);
      }
      username := body.value.username;
      SyncSid();
      r := Ok(Done(username, sid));
    }

    method BeginSms(step: AuthStep) returns (r: Result<Challenge>)
      requires Valid()
      modifies this`pending, this`answers, this`sidCookie, this`asked
      ensures Valid() && Checks(asked) == old(Checks(asked))
      ensures r.Ok? ==> r.value == NeedSmsCode(step.authId) && pending == Some(Step(step)) && step.mode.Some?
      ensures r.Err? ==> pending == old(pending) && r.error == if step.mode.None? then MissingMode else Failed
    {
      if step.mode.None? {
        return Err(MissingMode);
      }
      if step.mode.value.WithAuthId? {
        var config := Ask(AuthConfigGet);
        if config.None? {
          return Err(Failed);
        }
      }
      var _ := Ask(PhoneNumber);
      var sent := Ask(TriggerSms);
      if sent.None? || (sent.value.code != 0 && sent.value.code != SMS_PENDING) {
        return Err(Failed);
      }
      if step.mode.value.WithoutAuthId? {
        var config := Ask(AuthConfigGet);
        if config.None? {
          return Err(Failed);
        }
      }
      pending := Some(Step(step));
      r := Ok(NeedSmsCode(step.authId));
    }

    method BeginCustomSms() returns (r: Result<Challenge>)
      requires Valid()
      modifies this`pending, this`answers, this`sidCookie, this`asked
      ensures Valid() && Checks(asked) == old(Checks(asked))
      ensures r.Ok? ==> r.value == NeedSmsCode("") && Fits(r.value, pending)
      ensures r.Err? ==> r.error == Failed && pending == old(pending)
    {
      var sent := Ask(SendCustomSms);
      if sent.None? || sent.value.code != 0 {
        return Err(Failed);
      }
      pending := Some(Step(AuthStep("auth/customSms", "", Some(Custom))));
      r := Ok(NeedSmsCode(""));
    }

    /** The errors every call may return. */
    static predicate Ordinary(e: Error) {
      e.Failed? || e.TicketEmpty? || e.UnsupportedService? || e.ChainTooLong?
    }

    ghost predicate LastStepCompletes()
      reads this
    {
      lastStep.Some? && ServiceOf(lastStep.value.service).Complete?
    }

    /**
     * What a call that talks to the server promises: the flow fits the
     * challenge, and a login is done only when the server's last step said that
     * nothing more is needed.
     */
    ghost predicate Outcome(r: Result<Challenge>)
      reads this
    {
      && Valid()
      && (r.Ok? ==> Fits(r.value, pending))
      && (r.Ok? && r.value.Done? ==>
            r.value == Done(username, sid) && LastStepCompletes())
      && (r.Err? ==> Ordinary(r.error))
    }

    /** The chain of steps the server asks for: at most eight are followed. */
    method ContinueAuth(first: AuthStep) returns (r: Result<Challenge>)
      requires Valid() && first.mode == ModeOf(first.service, first.authId) && lastStep == Some(first)
      modifies this`pending, this`username, this`sid, this`answers, this`sidCookie, this`asked, this`lastStep
      ensures Outcome(r) && r != Ok(NeedCaptcha) && Checks(asked) <= old(Checks(asked)) + 8
      ensures r.Err? && pending != old(pending) ==> pending.None? && LastStepCompletes()
    {
      var step := first;
      for i := 0 to 8
        invariant Valid() && step.mode == ModeOf(step.service, step.authId) && lastStep == Some(step)
        invariant Checks(asked) <= old(Checks(asked)) + i && pending == old(pending)
      {
        match ServiceOf(step.service) {
          case Complete =>
            r := CompleteLogin();
            return;
          case AuthCheck =>
            var next := AuthCheck();
            if next.Err? {
              return Err(Failed);
            }
            step := next.value;
          case Sms =>
            r := BeginSms(step);
            return;
          case CustomSms =>
            r := BeginCustomSms();
            return;
          case Other =>
            return Err(UnsupportedService);
        }
      }
      r := Err(ChainTooLong);
    }

    /** `authCheck` and what follows from it. */
    method CheckAndContinue() returns (r: Result<Challenge>)
      requires Valid()
      modifies this`pending, this`username, this`sid, this`answers, this`sidCookie, this`asked, this`lastStep
      ensures Outcome(r) && r != Ok(NeedCaptcha) && Checks(asked) <= old(Checks(asked)) + 9
    {
      var step := AuthCheck();
      if step.Err? {
        return Err(Failed);
      }
      r := ContinueAuth(step.value);
    }

    method FinishLogin(update: bool) returns (r: Result<Challenge>)
      requires Valid()
      modifies this
      ensures Outcome(r) && r != Ok(NeedCaptcha) && Checks(asked) <= old(Checks(asked)) + 9
    {
      if update {
        var config := Ask(AuthConfigGet);
        if config.None? {
          return Err(Failed);
        }
      }
      if ticket == "" {
        return Err(TicketEmpty);
      }
      var report := Ask(ReportEnv(ticket));
      if report.None? || report.value.code != 0 {
        return Err(Failed);
      }
      r := CheckAndContinue();
    }

    /** The captcha picture, after which the call waits in `flow`. */
    method Captcha(flow: Flow) returns (r: Result<Challenge>)
      requires Valid() && TakesCaptcha(flow)
      modifies this`pending, this`answers, this`sidCookie, this`asked
      ensures Outcome(r) && Checks(asked) == old(Checks(asked))
      ensures pending == if r.Ok? then Some(flow) else old(pending)
    {
      var image := Ask(CaptchaGet);
      if image.None? {
        return Err(Failed);
      }
      pending := Some(flow);
      r := Ok(NeedCaptcha);
    }

    method RunPassword(user: string, captcha: string) returns (r: Result<Challenge>)
      requires Valid()
      modifies this
      ensures Outcome(r) && Checks(asked) <= old(Checks(asked)) + 9
      ensures r == Ok(NeedCaptcha) ==> pending == Some(Password(user))
    {
      var config := Ask(AuthConfigGet);
      if config.None? {
        return Err(Failed);
      }
      var reply := Ask(PasswordPost);
      if reply.None? || (reply.value.code != 0 && reply.value.captcha == 0) {
        return Err(Failed);
      }
      if reply.value.captcha != 0 {
        r := Captcha(Password(user));
        return;
      }
      ticket := reply.value.ticket;
      SyncSid();
      r := FinishLogin(false);
    }

    method RunSmsSend(phone: string, captcha: string) returns (r: Result<Challenge>)
      requires Valid()
      modifies this
      ensures Outcome(r) && Checks(asked) <= old(Checks(asked)) + 9
      ensures r == Ok(NeedCaptcha) ==> pending == Some(SmsLogin(phone))
    {
      var config := Ask(AuthConfigGet);
      if config.None? {
        return Err(Failed);
      }
      var reply := Ask(SendSms);
      if reply.None? || (reply.value.code != 0 && reply.value.code != SMS_PENDING) {
        return Err(Failed);
      }
      if reply.value.captcha != 0 && captcha == "" {
        r := Captcha(SmsLogin(phone));
        return;
      }
      r := CheckAndContinue();
    }

    method RunSmsVerify(phone: string, code: string, captcha: string) returns (r: Result<Challenge>)
      requires Valid()
      modifies this
      ensures Outcome(r) && Checks(asked) <= old(Checks(asked)) + 9
      ensures r == Ok(NeedCaptcha) ==> pending == Some(SmsVerify(phone, code))
    {
      var reply := Ask(SmsCheckCode);
      if reply.None? {
        return Err(Failed);
      }
      if reply.value.captcha != 0 && captcha == "" {
        r := Captcha(SmsVerify(phone, code));
        return;
      }
      ticket := reply.value.ticket;
      SyncSid();
      r := FinishLogin(false);
    }

    /** The code of a second factor, checked the way the step says. */
    method CompleteAuthStep(step: AuthStep, skip: bool) returns (r: Result<AuthStep>)
      modifies this`answers, this`sidCookie, this`asked, this`lastStep
      ensures Checks(asked) == old(Checks(asked))
      ensures r.Ok? ==> r.value.mode == ModeOf(r.value.service, r.value.authId) && lastStep == Some(r.value)
      ensures r.Err? ==> r.error == if step.mode.None? then InvalidStep else Failed
    {
      if step.mode.None? {
        return Err(InvalidStep);
      }
      var body := Ask(if step.mode.value.Custom? then CustomSmsCheck(skip) else SmsCheck(skip));
      if body.None? || body.value.code != 0 {
        return Err(Failed);
      }
      r := Ok(StepFrom(body.value.step));
      lastStep := Some(r.value);
    }

    // The calls of the application.

    method LoginWithPassword(user: string) returns (r: Result<Challenge>)
      requires Valid()
      modifies this
      ensures Outcome(r) && Checks(asked) <= old(Checks(asked)) + 9
    {
      ResetIdentity();
      pending := Some(Password(user));
      r := RunPassword(user, "");
    }

    method LoginWithSms(phone: string) returns (r: Result<Challenge>)
      requires Valid()
      modifies this
      ensures Outcome(r) && Checks(asked) <= old(Checks(asked)) + 9
    {
      ResetIdentity();
      pending := Some(SmsLogin(phone));
      r := RunSmsSend(phone, "");
    }

    method SubmitCaptcha(captcha: string) returns (r: Result<Challenge>)
      requires Valid()
      modifies this
      ensures Checks(asked) <= old(Checks(asked)) + 9
      ensures r == Err(NoPending) <==> old(pending).None?
      ensures r == Err(CaptchaNotExpected) <==> old(pending).Some? && !TakesCaptcha(old(pending).value)
      ensures r != Err(NoPending) && r != Err(CaptchaNotExpected) ==> Outcome(r)
      ensures r == Err(NoPending) || r == Err(CaptchaNotExpected) ==> Valid() && pending == old(pending)
    {
      if pending.None? {
        return Err(NoPending);
      }
      match pending.value {
        case Password(user) => r := RunPassword(user, captcha);
        case SmsLogin(phone) => r := RunSmsSend(phone, captcha);
        case SmsVerify(phone, code) => r := RunSmsVerify(phone, code, captcha);
        case Step(_) => r := Err(CaptchaNotExpected);
      }
    }

    /** A second factor that fails leaves its flow in place, unless the login was complete but for the user's name. */
    method SubmitSmsCode(code: string) returns (r: Result<Challenge>)
      requires Valid()
      modifies this
      ensures Checks(asked) <= old(Checks(asked)) + 9
      ensures r == Err(NoPending) <==> old(pending).None?
      ensures r == Err(PasswordPending) <==> old(pending).Some? && old(pending).value.Password?
      ensures r != Err(NoPending) && r != Err(PasswordPending) ==> Outcome(r)
      ensures r == Err(NoPending) || r == Err(PasswordPending) ==> Valid() && pending == old(pending)
      ensures old(pending).Some? && old(pending).value.Step? && r.Err? && pending != old(pending) ==>
                pending.None? && LastStepCompletes()
    {
      if pending.None? {
        return Err(NoPending);
      }
      match pending.value {
        case Step(step) =>
          var skip := code != "" && code[0] == '$';
          var next := CompleteAuthStep(step, skip);
          if next.Err? {
            return Err(next.error);
          }
          r := ContinueAuth(next.value);
        case SmsLogin(phone) =>
          pending := Some(SmsVerify(phone, code));
          if !pending.value.SmsVerify? {
            assert false;  // the flow is read back and cannot be lost
          }
          r := RunSmsVerify(phone, code, "");
        case SmsVerify(phone, _) => r := RunSmsVerify(phone, code, "");
        case Password(_) => r := Err(PasswordPending);
      }
    }

    method CompleteCallback() returns (r: Result<Challenge>)
      requires Valid()
      modifies this
      ensures Outcome(r) && Checks(asked) <= old(Checks(asked)) + 9
    {
      var reply := Ask(CallbackGet);
      if reply.None? {
        return Err(Failed);
      }
      ticket := reply.value.ticket;
      r := FinishLogin(true);
    }

    /** A stored session is taken over; the pending flow is left alone. */
    method ResumeSession(user: string, session: string, cookie: Option<string>) returns (r: Result<Session>)
      requires Valid()
      modifies this
      ensures Valid() && pending == old(pending) && Checks(asked) == old(Checks(asked))
      ensures r.Ok? ==> r.value == Session(username, sid)
    {
      username, ticket, sid, sidCookie := user, "", session, cookie;
      var config := Ask(AuthConfigGet);
      if config.None? {
        return Err(Failed);
      }
      if !config.value.isLogin {
        return Err(NotLoggedIn);
      }
      var info := Ask(OnlineInfo);
      if info.None? {
        return Err(Failed);
      }
      username := info.value.username;
      SyncSid();
      r := Ok(Session(username, sid));
    }

    method Serve(call: Call) returns (r: Option<Result<Challenge>>)
      requires Valid()
      modifies this
      ensures Valid() && Sound(old(pending), Event(call, r, pending))
    {
      r := None;
      match call {
        case PasswordCall(user) => var c := LoginWithPassword(user); r := Some(c);
        case SmsCall(phone) => var c := LoginWithSms(phone); r := Some(c);
        case CaptchaCall(text) => var c := SubmitCaptcha(text); r := Some(c);
        case CodeCall(text) => var c := SubmitSmsCode(text); r := Some(c);
        case CallbackCall(reset) =>
          if reset { ResetIdentity(); }
          var c := CompleteCallback();
          r := Some(c);
        case PrepareCall => ResetIdentity();
        case ResumeCall(user, session, cookie) => var _ := ResumeSession(user, session, cookie);
      }
    }
  }

  function Before(log: seq<Event>, i: nat): (pending: Option<Flow>)
    requires i <= |log|
  {
    if i == 0 then None else log[i - 1].pending
  }

  /** The flow a log leaves pending. */
  function Latest(log: seq<Event>): (pending: Option<Flow>) {
    Before(log, |log|)
  }

  predicate AllSound(log: seq<Event>) {
    forall i :: 0 <= i < |log| ==> Sound(Before(log, i), log[i])
  }

  lemma SoundMore(log: seq<Event>, e: Event)
    requires AllSound(log) && Sound(Latest(log), e)
    ensures AllSound(log + [e]) && Latest(log + [e]) == e.pending
  {
    var more := log + [e];
    forall i | 0 <= i < |more| ensures Sound(Before(more, i), more[i]) {
      assert Before(more, i) == Before(log, i);
      if i < |log| { assert more[i] == log[i]; }
    }
  }

  /** Every sequence of calls against every server. */
  method Play(calls: seq<Call>, answers: seq<Answer>) returns (log: seq<Event>)
    ensures |log| == |calls| && forall i :: 0 <= i < |log| ==> log[i].call == calls[i]
    ensures AllSound(log)
  {
    var session := new AuthSession(answers);
    log := [];
    for i := 0 to |calls|
      invariant |log| == i && session.Valid()
      invariant session.pending == Latest(log)
      invariant forall k :: 0 <= k < i ==> log[k].call == calls[k]
      invariant AllSound(log)
    {
      var r := session.Serve(calls[i]);
      SoundMore(log, Event(calls[i], r, session.pending));
      log := log + [Event(calls[i], r, session.pending)];
    }
  }

  /** So the input a challenge asks for is never refused as unexpected by the next call. */
  lemma ChallengeIsAnswerable(log: seq<Event>, i: nat)
    requires 0 < i < |log| && AllSound(log)
    requires log[i - 1].result.Some? && log[i - 1].result.value.Ok? && log[i].result.Some?
    ensures log[i - 1].result.value.value.NeedCaptcha? && log[i].call.CaptchaCall? ==>
              log[i].result.value != Err(NoPending) && log[i].result.value != Err(CaptchaNotExpected)
    ensures log[i - 1].result.value.value.NeedSmsCode? && log[i].call.CodeCall? ==>
              log[i].result.value != Err(NoPending) && log[i].result.value != Err(PasswordPending)
    ensures log[i - 1].result.value.value.Done? && (log[i].call.CaptchaCall? || log[i].call.CodeCall?) ==>
              log[i].result.value == Err(NoPending)
  {
    assert Before(log, i) == log[i - 1].pending;
    assert Fits(log[i - 1].result.value.value, log[i - 1].pending);
  }
}
