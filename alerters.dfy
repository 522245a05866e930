/**
 * The notification channels' configuration and its validation (cmd/alerters.go).
 * Each `Valid` receives its struct by value and changes nothing outside itself, so
 * each is a function. Only the configuration check is modelled: the SMTP and HTTP
 * sends are external.
 */
module Alerters {
  import opened Wrappers
  import opened Strings
  import opened Errors

  /** The error message a validator builds from its list of missing fields. */
  function Failure(context: string, missing: seq<ErrConst>): string
  {
    Wrap(context, Join(Texts(missing), ", "))
  }

  /** The order in which each validator tests its settings. */
  const EmailOrder := [ErrEmailNoSMTP, ErrEmailNoTo, ErrEmailNoFrom, ErrEmailNoPass, ErrEmailNoPort, ErrEmailNoSubject]
  const PushoverOrder := [ErrPushoverAPIToken, ErrPushoverUserKey, ErrPushoverAPIURL]
  const PushbulletOrder := [ErrPushbulletAccessToken, ErrPushbulletTitle]

  datatype Email = Email(smtp: string, password: string, port: string, from: string, to: seq<string>, subject: string)
  {
    /** reflect.DeepEqual(Email{}, e): the channel was omitted. */
    predicate IsZero()
    {
      smtp == "" && password == "" && port == "" && from == "" && to == [] && subject == ""
    }

    /** Every setting that sending needs is present. */
    predicate Complete()
    {
      smtp != "" && |to| >= 1 && from != "" && password != "" && port != "" && subject != ""
    }

    /** The test `Valid` makes for each of its errors. */
    predicate Lacks(e: ErrConst)
    {
      match e
      case ErrEmailNoSMTP => smtp == ""
      case ErrEmailNoTo => |to| < 1
      case ErrEmailNoFrom => from == ""
      case ErrEmailNoPass => password == ""
      case ErrEmailNoPort => port == ""
      case ErrEmailNoSubject => subject == ""
      case _ => false
    }

    /** The errors `Valid` collects: one per missing setting, in the order of the tests. */
    function Missing(): (r: seq<ErrConst>)
      ensures forall x :: x in r <==> x in EmailOrder && Lacks(x)
      ensures IsSubseq(r, EmailOrder)
    {
      var errString := Select(EmailOrder, e => Lacks(e));
      errString
    }

    /** No error is collected exactly when every setting is present. */
    lemma MissingEmpty()
      ensures Missing() == [] <==> Complete()
    {
      var r := Missing();
      if r != [] {
        assert r[0] in r;
      }
      if !Complete() {
        var e := if smtp == "" then ErrEmailNoSMTP else if |to| < 1 then ErrEmailNoTo else if from == "" then ErrEmailNoFrom
          else if password == "" then ErrEmailNoPass else if port == "" then ErrEmailNoPort else ErrEmailNoSubject;
        assert e in EmailOrder && Lacks(e);
        assert e in r;
      }
    }

    /** Email.Valid: nil for an omitted or complete channel, otherwise every missing field. */
    function Valid(): Option<string>
    {
      if IsZero() then None
      else
        var errString := Missing();
        if |errString| == 0 then None
        else Some(Failure("email settings validation fail", errString))
    }

    /** Valid errs exactly when the channel is neither omitted nor complete, and then names every missing setting in order. */
    lemma ValidLaw()
      ensures Valid().None? <==> IsZero() || Complete()
      ensures Valid().Some? ==> Valid().value == Failure("email settings validation fail", Missing())
    {
      MissingEmpty();
    }
  }

  datatype Slack = Slack(webhookURL: string)
  {
    /** reflect.DeepEqual(Slack{}, s) */
    predicate IsZero()
    {
      webhookURL == ""
    }

    /** Slack.Valid: the URL is the only field, so a non-omitted Slack is always complete. */
    function Valid(): (r: Option<string>)
      ensures r.None?
    {
      if IsZero() then None
      else
        var errString := if webhookURL == "" then [ErrSlackNoWebHookURL] else [];
        if |errString| == 0 then None
        else Some(Failure("slack settings validation fail", errString))
    }
  }

  datatype Pushover = Pushover(apiToken: string, userKey: string, apiURL: string)
  {
    /** reflect.DeepEqual(Pushover{}, p) */
    predicate IsZero()
    {
      apiToken == "" && userKey == "" && apiURL == ""
    }

    predicate Complete()
    {
      apiToken != "" && userKey != "" && apiURL != ""
    }

    predicate Lacks(e: ErrConst)
    {
      match e
      case ErrPushoverAPIToken => apiToken == ""
      case ErrPushoverUserKey => userKey == ""
      case ErrPushoverAPIURL => apiURL == ""
      case _ => false
    }

    function Missing(): (r: seq<ErrConst>)
      ensures forall x :: x in r <==> x in PushoverOrder && Lacks(x)
      ensures IsSubseq(r, PushoverOrder)
    {
      var errString := Select(PushoverOrder, e => Lacks(e));
      errString
    }

    /** No error is collected exactly when every setting is present. */
    lemma MissingEmpty()
      ensures Missing() == [] <==> Complete()
    {
      var r := Missing();
      if r != [] {
        assert r[0] in r;
      }
      if !Complete() {
        var e := if apiToken == "" then ErrPushoverAPIToken else if userKey == "" then ErrPushoverUserKey else ErrPushoverAPIURL;
        assert e in PushoverOrder && Lacks(e);
        assert e in r;
      }
    }

    /** Pushover.Valid */
    function Valid(): Option<string>
    {
      if IsZero() then None
      else
        var errString := Missing();
        if |errString| == 0 then None
        else Some(Failure("pushover settings validation fail", errString))
    }

    /** Valid errs exactly when the channel is neither omitted nor complete, and then names every missing setting in order. */
    lemma ValidLaw()
      ensures Valid().None? <==> IsZero() || Complete()
      ensures Valid().Some? ==> Valid().value == Failure("pushover settings validation fail", Missing())
    {
      MissingEmpty();
    }
  }

  datatype Pushbullet = Pushbullet(accessToken: string, title: string)
  {
    /** reflect.DeepEqual(Pushbullet{}, p) */
    predicate IsZero()
    {
      accessToken == "" && title == ""
    }

    predicate Complete()
    {
      accessToken != "" && title != ""
    }

    predicate Lacks(e: ErrConst)
    {
      match e
      case ErrPushbulletAccessToken => accessToken == ""
      case ErrPushbulletTitle => title == ""
      case _ => false
    }

    function Missing(): (r: seq<ErrConst>)
      ensures forall x :: x in r <==> x in PushbulletOrder && Lacks(x)
      ensures IsSubseq(r, PushbulletOrder)
    {
      var errString := Select(PushbulletOrder, e => Lacks(e));
      errString
    }

    /** No error is collected exactly when every setting is present. */
    lemma MissingEmpty()
      ensures Missing() == [] <==> Complete()
    {
      var r := Missing();
      if r != [] {
        assert r[0] in r;
      }
      if !Complete() {
        var e := if accessToken == "" then ErrPushbulletAccessToken else ErrPushbulletTitle;
        assert e in PushbulletOrder && Lacks(e);
        assert e in r;
      }
    }

    /** Pushbullet.Valid */
    function Valid(): Option<string>
    {
      if IsZero() then None
      else
        var errString := Missing();
        if |errString| == 0 then None
        else Some(Failure("pushbullet settings validation fail", errString))
    }

    /** Valid errs exactly when the channel is neither omitted nor complete, and then names every missing setting in order. */
    lemma ValidLaw()
      ensures Valid().None? <==> IsZero() || Complete()
      ensures Valid().Some? ==> Valid().value == Failure("pushbullet settings validation fail", Missing())
    {
      MissingEmpty();
    }
  }

  /** The Alerter interface values that `Conf.Alerters` holds. */
  datatype Alerter =
    | EmailAlerter(email: Email)
    | SlackAlerter(slack: Slack)
    | PushoverAlerter(pushover: Pushover)
    | PushbulletAlerter(pushbullet: Pushbullet)
}
