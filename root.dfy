/**
 * The daemon's configuration (cmd/root.go) and its validation. Validate runs
 * every check, collects every complaint, and builds the list of active
 * alerters as a side effect, in the order email, Slack, Pushover, Pushbullet.
 * Parsing the alert templates (cmd/template.go) is an input: `build` says
 * what TemplateConfig.Build returns for the configured templates.
 */
module Root {
  import opened Wrappers
  import opened Strings
  import opened Errors
  import opened Alerters
  import opened Checks

  /** One entry of the configured containers: its name, limits and delay. */
  datatype ContainerConf = ContainerConf(name: string, maxCPU: Option<nat>, maxMem: Option<nat>, minProcs: Option<nat>,
                                         expectedRunning: Option<bool>, delay: Option<nat>)

  /** The user's title and message template text for one alert. */
  datatype AlertTemplate = AlertTemplate(title: string, message: string)

  /**
   * TemplateConfig: the ten user templates and the executor they were parsed
   * into; `None` is the executor before any template was parsed.
   */
  datatype TemplateConfig = TemplateConfig(
    existFailure: AlertTemplate, existRecovery: AlertTemplate,
    runningFailure: AlertTemplate, runningRecovery: AlertTemplate,
    cpuFailure: AlertTemplate, cpuRecovery: AlertTemplate,
    minPidFailure: AlertTemplate, minPidRecovery: AlertTemplate,
    memoryFailure: AlertTemplate, memoryRecovery: AlertTemplate,
    executor: Option<Renderer>)
  {
    predicate IsZero()
    {
      var blank := AlertTemplate("", "");
      existFailure == blank && existRecovery == blank && runningFailure == blank && runningRecovery == blank
      && cpuFailure == blank && cpuRecovery == blank && minPidFailure == blank && minPidRecovery == blank
      && memoryFailure == blank && memoryRecovery == blank && executor.None?
    }

    /** What ExecuteTemplate writes: an executor with no parsed templates writes nothing. */
    function Render(): (r: Renderer)
      ensures executor.None? ==> forall name, data :: r(name, data) == ""
      ensures executor.Some? ==> r == executor.value
    {
      match executor
      case None => (name: string, data: Payload) => ""
      case Some(render) => render
    }
  }

  /** What TemplateConfig.Build returns: the rebuilt configuration and its error. */
  datatype BuildOutcome = BuildOutcome(templates: TemplateConfig, err: Option<string>)

  /** The text an error adds to Validate's list: its message, when there is one. */
  function Reported(err: Option<string>): (r: seq<string>)
    ensures r == [] <==> err.None?
    ensures err.Some? ==> r == [err.value]
  {
    match err
    case None => []
    case Some(m) => [m]
  }

  /** The alerter a channel contributes: one when it is configured and valid. */
  function EmailAlerters(email: Email): seq<Alerter>
  {
    if !email.IsZero() && email.Valid().None? then [EmailAlerter(email)] else []
  }

  function SlackAlerters(slack: Slack): seq<Alerter>
  {
    if !slack.IsZero() then [SlackAlerter(slack)] else []
  }

  function PushoverAlerters(pushover: Pushover): seq<Alerter>
  {
    if !pushover.IsZero() && pushover.Valid().None? then [PushoverAlerter(pushover)] else []
  }

  function PushbulletAlerters(pushbullet: Pushbullet): seq<Alerter>
  {
    if !pushbullet.IsZero() && pushbullet.Valid().None? then [PushbulletAlerter(pushbullet)] else []
  }

  /**
   * The complaints Validate collects, in the order it checks: an all-default
   * configuration, no containers, then each channel's own error, then the
   * template error.
   */
  function Problems(zero: bool, count: nat, email: Email, slack: Slack, pushover: Pushover, pushbullet: Pushbullet,
                    buildErr: Option<string>): seq<string>
  {
    (if zero then [Text(ErrEmptyConfig)] else [])
    + (if count < 1 then [Text(ErrNoContainers)] else [])
    + Reported(email.Valid()) + Reported(slack.Valid()) + Reported(pushover.Valid()) + Reported(pushbullet.Valid())
    + Reported(buildErr)
  }

  /**
   * A configuration passes exactly when it is not all-default, names at least
   * one container, every channel is either omitted or fully configured, and
   * the templates parse.
   */
  lemma ProblemsEmpty(zero: bool, count: nat, email: Email, slack: Slack, pushover: Pushover, pushbullet: Pushbullet,
                      buildErr: Option<string>)
    ensures Problems(zero, count, email, slack, pushover, pushbullet, buildErr) == [] <==>
      !zero && count >= 1 && (email.IsZero() || email.Complete()) && (pushover.IsZero() || pushover.Complete())
      && (pushbullet.IsZero() || pushbullet.Complete()) && buildErr.None?
  {
    email.ValidLaw();
    pushover.ValidLaw();
    pushbullet.ValidLaw();
    var p := Problems(zero, count, email, slack, pushover, pushbullet, buildErr);
    if p == [] {
      assert |Reported(email.Valid())| == 0;
      assert |Reported(pushover.Valid())| == 0;
      assert |Reported(pushbullet.Valid())| == 0;
      assert |Reported(buildErr)| == 0;
    }
  }

  /** Without containers validation always fails, and says so. */
  lemma NoContainersFails(zero: bool, email: Email, slack: Slack, pushover: Pushover, pushbullet: Pushbullet,
                          buildErr: Option<string>)
    ensures Text(ErrNoContainers) in Problems(zero, 0, email, slack, pushover, pushbullet, buildErr)
    ensures Problems(zero, 0, email, slack, pushover, pushbullet, buildErr) != []
  {
    var p := Problems(zero, 0, email, slack, pushover, pushbullet, buildErr);
    var k := if zero then 1 else 0;
    assert p[k] == Text(ErrNoContainers);
  }

  /**
   * An all-default configuration fails with both the empty configuration and
   * the missing containers, in that order. Build falls back to the built-in
   * templates for empty ones, so it reports no template error here.
   */
  lemma ZeroConfigProblems()
    ensures Problems(true, 0, Email("", "", "", "", [], ""), Slack(""), Pushover("", "", ""), Pushbullet("", ""), None)
      == [Text(ErrEmptyConfig), Text(ErrNoContainers)]
  {
  }

  /**
   * Validation does not stop at the first complaint: a configuration that is
   * not all-default but names no container and whose templates do not parse
   * reports both, in that order.
   */
  lemma ComplaintsAccumulate(err: string)
    ensures Problems(false, 0, Email("", "", "", "", [], ""), Slack(""), Pushover("", "", ""), Pushbullet("", ""), Some(err))
      == [Text(ErrNoContainers), err]
  {
  }

  /** Conf: the configuration read from the file, and the alerters validation activates. */
  class Conf {
    const containers: seq<ContainerConf>
    const email: Email
    const slack: Slack
    const pushover: Pushover
    const pushbullet: Pushbullet
    const iterations: nat
    const duration: nat
    var alerters: seq<Alerter>
    var templates: TemplateConfig

    /** The configuration as loaded: no alerters are active yet. */
    constructor(containers: seq<ContainerConf>, email: Email, slack: Slack, pushover: Pushover, pushbullet: Pushbullet,
                iterations: nat, duration: nat, templates: TemplateConfig)
      ensures this.containers == containers && this.email == email && this.slack == slack
      ensures this.pushover == pushover && this.pushbullet == pushbullet
      ensures this.iterations == iterations && this.duration == duration
      ensures this.templates == templates && alerters == []
    {
      this.containers := containers;
      this.email := email;
      this.slack := slack;
      this.pushover := pushover;
      this.pushbullet := pushbullet;
      this.iterations := iterations;
      this.duration := duration;
      this.templates := templates;
      alerters := [];
    }

    /** The configuration equals the zero Conf. */
    predicate IsZero()
      reads this
    {
      containers == [] && email.IsZero() && slack.IsZero() && pushover.IsZero() && pushbullet.IsZero()
      && iterations == 0 && duration == 0 && alerters == [] && templates.IsZero()
    }

    /** ValidateEmailSettings */
    method ValidateEmailSettings() returns (err: Option<string>)
      modifies this`alerters
      ensures err == email.Valid()
      ensures err.Some? ==> !email.IsZero()
      ensures alerters == old(alerters) + EmailAlerters(email)
    {
      err := email.Valid();
      if email.IsZero() {
        return None;
      } else if err.Some? {
        return err;
      }
      alerters := alerters + [EmailAlerter(email)];
      return None;
    }

    /** ValidateSlackSettings */
    method ValidateSlackSettings() returns (err: Option<string>)
      modifies this`alerters
      ensures err == slack.Valid() && err.None?
      ensures alerters == old(alerters) + SlackAlerters(slack)
    {
      err := slack.Valid();
      if slack.IsZero() {
        return None;
      } else if err.Some? {
        return err;
      }
      alerters := alerters + [SlackAlerter(slack)];
      return None;
    }

    /** ValidatePushoverSettings */
    method ValidatePushoverSettings() returns (err: Option<string>)
      modifies this`alerters
      ensures err == pushover.Valid()
      ensures err.Some? ==> !pushover.IsZero()
      ensures alerters == old(alerters) + PushoverAlerters(pushover)
    {
      err := pushover.Valid();
      if pushover.IsZero() {
        return None;
      } else if err.Some? {
        return err;
      }
      alerters := alerters + [PushoverAlerter(pushover)];
      return None;
    }

    /** ValidatePushbulletSettings */
    method ValidatePushbulletSettings() returns (err: Option<string>)
      modifies this`alerters
      ensures err == pushbullet.Valid()
      ensures err.Some? ==> !pushbullet.IsZero()
      ensures alerters == old(alerters) + PushbulletAlerters(pushbullet)
    {
      err := pushbullet.Valid();
      if pushbullet.IsZero() {
        return None;
      } else if err.Some? {
        return err;
      }
      alerters := alerters + [PushbulletAlerter(pushbullet)];
      return None;
    }

    /** ValidateTemplatesSettings: the templates are replaced by what Build returns, even on an error. */
    method ValidateTemplatesSettings(build: TemplateConfig -> BuildOutcome) returns (err: Option<string>)
      modifies this`templates
      ensures templates == build(old(templates)).templates
      ensures err == build(old(templates)).err
    {
      var outcome := build(templates);
      templates := outcome.templates;
      err := outcome.err;
      if err.Some? {
        return err;
      }
      return None;
    }

    /**
     * Validate: every complaint, in order, joined by ", " under "config
     * validation fail"; no error exactly when there was no complaint. The
     * valid channels are appended to the alerters whatever the outcome.
     */
    method Validate(build: TemplateConfig -> BuildOutcome) returns (err: Option<string>)
      modifies this`alerters, this`templates
      ensures var problems := Problems(old(IsZero()), |containers|, email, slack, pushover, pushbullet, build(old(templates)).err);
        err == if problems == [] then None else Some(Wrap("config validation fail", Join(problems, ", ")))
      ensures alerters == old(alerters) + EmailAlerters(email) + SlackAlerters(slack) + PushoverAlerters(pushover)
        + PushbulletAlerters(pushbullet)
      ensures templates == build(old(templates)).templates
    {
      ghost var zero := IsZero();
      ghost var outcome := build(templates);
      var errString: seq<string> := [];
      if IsZero() {
        errString := errString + [Text(ErrEmptyConfig)];
      }
      if |containers| < 1 {
        errString := errString + [Text(ErrNoContainers)];
      }
      ghost var head := errString;
      assert head == (if zero then [Text(ErrEmptyConfig)] else []) + (if |containers| < 1 then [Text(ErrNoContainers)] else []);
      var e := ValidateEmailSettings();
      errString := errString + Reported(e);
      e := ValidateSlackSettings();
      errString := errString + Reported(e);
      e := ValidatePushoverSettings();
      errString := errString + Reported(e);
      e := ValidatePushbulletSettings();
      errString := errString + Reported(e);
      e := ValidateTemplatesSettings(build);
      errString := errString + Reported(e);
      assert templates == outcome.templates;
      assert errString == Problems(zero, |containers|, email, slack, pushover, pushbullet, outcome.err);
      if |errString| == 0 {
        return None;
      }
      var delimErr := Join(errString, ", ");
      return Some(Wrap("config validation fail", delimErr));
    }
  }
}
