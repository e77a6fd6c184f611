/**
 * `LoggerModule.register` (logger.module.ts lines 15-71): default and
 * validate the notification level, then pick at most one notification
 * backend from the configured type and the two webhook environment
 * variables. The providers it returns carry the level and the backend.
 */
module Registration {
  import opened Wrappers
  import opened Levels

  /** A constructed notification service and the webhook URL it was built with. */
  datatype Backend = Slack(webhookUrl: string) | Discord(webhookUrl: string)

  /**
   * `options.notification`: `level` None is null or undefined; `kind` is the
   * runtime value of `type`, which need not be one of the three the type
   * declares; `webhookUrl` is only read for "slack" and "discord".
   */
  datatype NotificationOptions = NotificationOptions(level: Option<string>, kind: string, webhookUrl: string)

  /** `process.env.SLACK_WEBHOOK_URL` and `process.env.DISCORD_WEBHOOK_URL`; None is unset. */
  datatype Environment = Environment(slackWebhookUrl: Option<string>, discordWebhookUrl: Option<string>)

  /** The values provided under NOTIFICATION_LEVEL and NOTIFICATION_SERVICE. */
  datatype Providers = Providers(notificationLevel: LogLevel, notificationService: Option<Backend>)

  datatype ConfigError =
    | NotificationUndefined      // TypeError: reading `level` of undefined
    | InvalidLevel(level: string)

  const DefaultLevel: string := "warn"

  /**
   * The message of the thrown error. For NotificationUndefined it is the
   * V8 engine's wording of the TypeError, not text of the library.
   */
  function ErrorMessage(e: ConfigError): string {
    match e
    case NotificationUndefined => "Cannot read properties of undefined (reading 'level')"
    case InvalidLevel(level) => "Invalid NOTIFICATION_LEVEL: " + level
  }

  /** JavaScript truthiness of an environment value: set and not empty. */
  predicate Truthy(v: Option<string>) {
    v.Some? && v.value != ""
  }

  /** `options.notification.level ?? "warn"` */
  function LevelName(n: NotificationOptions): string {
    n.level.GetOr(DefaultLevel)
  }

  /**
   * The `switch` on `options.notification.type`: "auto" prefers Slack, then
   * Discord, from the environment; "slack" and "discord" use the configured
   * URL and ignore the environment; any other value leaves the service
   * unassigned.
   */
  function SelectBackend(n: NotificationOptions, env: Environment): (b: Option<Backend>)
    ensures b.Some? <==>
              || n.kind == "slack" || n.kind == "discord"
              || (n.kind == "auto" && (Truthy(env.slackWebhookUrl) || Truthy(env.discordWebhookUrl)))
    ensures b.Some? && b.value.Slack? <==> n.kind == "slack" || (n.kind == "auto" && Truthy(env.slackWebhookUrl))
    ensures n.kind == "slack" || n.kind == "discord" ==> b.value.webhookUrl == n.webhookUrl
    ensures n.kind == "auto" && b.Some? ==>
              && b.value.webhookUrl != ""
              && b.value.webhookUrl == (if b.value.Slack? then env.slackWebhookUrl.value else env.discordWebhookUrl.value)
  {
    if n.kind == "auto" then
      if Truthy(env.slackWebhookUrl) then Some(Slack(env.slackWebhookUrl.value))
      else if Truthy(env.discordWebhookUrl) then Some(Discord(env.discordWebhookUrl.value))
      else None
    else if n.kind == "slack" then Some(Slack(n.webhookUrl))
    else if n.kind == "discord" then Some(Discord(n.webhookUrl))
    else None
  }

  /**
   * `LoggerModule.register(options)` as written: the level is read from
   * `options.notification` before the `if (options.notification)` guard, so
   * an absent `notification` throws; an unknown level throws before any
   * backend is built.
   */
  function Register(notification: Option<NotificationOptions>, env: Environment): (r: Result<Providers, ConfigError>)
    ensures r.Failure? <==> notification.None? || Parse(LevelName(notification.value)).None?
    ensures notification.Some? && r.Failure? ==> r.error == InvalidLevel(LevelName(notification.value))
    ensures r.Success? ==> Name(r.value.notificationLevel) == LevelName(notification.value)
    ensures r.Success? ==> r.value.notificationService == SelectBackend(notification.value, env)
  {
    match notification
    case None => Failure(NotificationUndefined)
    case Some(n) =>
      var levelName := LevelName(n);
      match Parse(levelName)
      case None => Failure(InvalidLevel(levelName))
      case Some(level) => Success(Providers(level, SelectBackend(n, env)))
  }

  /** With no level configured the threshold is warn. */
  lemma RegisterDefaultsToWarn(n: NotificationOptions, env: Environment)
    requires n.level.None?
    ensures Register(Some(n), env) == Success(Providers(Warn, SelectBackend(n, env)))
  {
    assert LevelName(n) == "warn";
  }

  /** A level outside LOG_LEVELS fails with its message, whatever the type and environment. */
  lemma RegisterRejectsUnknownLevel(n: NotificationOptions, env: Environment, level: string)
    requires n.level == Some(level) && level !in {"verbose", "debug", "log", "warn", "error", "fatal"}
    ensures Register(Some(n), env).Failure?
    ensures ErrorMessage(Register(Some(n), env).error) == "Invalid NOTIFICATION_LEVEL: " + level
  {
  }

  /** An absent `notification` fails instead of configuring "no backend". */
  lemma RegisterAbsentNotificationFails(env: Environment)
    ensures Register(None, env) == Failure(NotificationUndefined)
  {
  }

  /**
   * `register` with the guard the code evidently intends, reading the level
   * as `options.notification?.level ?? "warn"`: an absent `notification`
   * gives the default level and no backend; otherwise it agrees with
   * Register.
   */
  function RegisterGuarded(notification: Option<NotificationOptions>, env: Environment): (r: Result<Providers, ConfigError>)
    ensures notification.None? ==> r == Success(Providers(Warn, None))
    ensures notification.Some? ==> r == Register(notification, env)
    ensures r.Failure? <==> notification.Some? && Parse(LevelName(notification.value)).None?
  {
    match notification
    case None => Success(Providers(Warn, None))
    case Some(_) => Register(notification, env)
  }
}
