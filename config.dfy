/** The gateway's read-only configuration, read once from the environment at start-up. */
module Config {

  datatype Config = Config(
    bucketName: string,
    bucketPrefix: string,
    queueName: string,
    projectId: string,
    region: string,
    taskHandlerUrl: string,
    /** the machine identity the task queue uses to call the task handler */
    taskServiceAccountEmail: string,
    /** the identity the notification source signs its push requests with */
    storageServiceAccountEmail: string)

  /** `v` is what `process.env[key] || default` gives: the variable's value when it is set
      and non-empty, and `default` otherwise. */
  predicate FallsBack(env: map<string, string>, key: string, default: string, v: string) {
    && (key in env && env[key] != "" ==> v == env[key])
    && (key !in env || env[key] == "" ==> v == default)
  }

  /** `process.env[key] || default`: an unset or empty variable falls back to `default`. */
  function EnvOr(env: map<string, string>, key: string, default: string): (v: string)
    ensures key in env && env[key] != "" ==> v == env[key]
    ensures key !in env || env[key] == "" ==> v == default
  {
    if key in env && env[key] != "" then env[key] else default
  }

  /** The configuration read from `env`; every setting defaults to the empty string except
      the object prefix, which defaults to `upload`. */
  function FromEnv(env: map<string, string>): (c: Config)
    ensures c.bucketPrefix != ""
    ensures ("BUCKET_PREFIX" !in env || env["BUCKET_PREFIX"] == "") ==> c.bucketPrefix == "upload"
    ensures FallsBack(env, "BUCKET_NAME", "", c.bucketName)
    ensures FallsBack(env, "BUCKET_PREFIX", "upload", c.bucketPrefix)
    ensures FallsBack(env, "QUEUE_NAME", "", c.queueName)
    ensures FallsBack(env, "PROJECT_ID", "", c.projectId)
    ensures FallsBack(env, "REGION", "", c.region)
    ensures FallsBack(env, "TASK_HANDLER_URL", "", c.taskHandlerUrl)
    ensures FallsBack(env, "TASKS_SERVICE_ACCOUNT_EMAIL", "", c.taskServiceAccountEmail)
    ensures FallsBack(env, "STORAGE_SERVICE_ACCOUNT_EMAIL", "", c.storageServiceAccountEmail)
  {
    Config(
      EnvOr(env, "BUCKET_NAME", ""),
      EnvOr(env, "BUCKET_PREFIX", "upload"),
      EnvOr(env, "QUEUE_NAME", ""),
      EnvOr(env, "PROJECT_ID", ""),
      EnvOr(env, "REGION", ""),
      EnvOr(env, "TASK_HANDLER_URL", ""),
      EnvOr(env, "TASKS_SERVICE_ACCOUNT_EMAIL", ""),
      EnvOr(env, "STORAGE_SERVICE_ACCOUNT_EMAIL", ""))
  }
}
