/**
  The gunicorn configuration module: the number of worker processes from
  the environment or the CPU count, the threads per worker from the
  machine's memory, and the address to bind.
 */
module GunicornConf {
  import opened Wrappers
  import opened Text

  /** A Python float: a real number, NaN or an infinity. */
  datatype PyFloat = Finite(value: real) | NaN | PosInf | NegInf

  /** What importing the configuration can raise. */
  datatype ConfigError = ValueError(msg: string) | AssertionError | OverflowError(msg: string)

  datatype Config = Config(
    bind: string,
    workers: int,
    threads: nat,
    workerClass: string,
    workerTmpDir: Option<string>,
    keepalive: nat,
    timeout: nat,
    gracefulTimeout: nat)

  const MaxDefaultWorkers: int := 8
  const GiB: nat := 1024 * 1024 * 1024

  /** `os.getenv(key, default)`. */
  function Getenv(env: map<string, string>, key: string, default: string): string
  {
    if key in env then env[key] else default
  }

  /** `multiprocessing.cpu_count() * workers_per_core`, a positive integer times a float. */
  function Scale(cpuCount: nat, f: PyFloat): PyFloat
    requires cpuCount >= 1
  {
    match f
    case Finite(v) => Finite(cpuCount as real * v)
    case _ => f
  }

  /** `min(int(max(2, x)), 8)`: `max` keeps 2 unless `x` compares greater, `int` truncates and refuses infinity. */
  function CapWorkers(x: PyFloat): (r: Result<int, ConfigError>)
    ensures r.Failure? <==> x == PosInf
    ensures r.Success? ==> 2 <= r.value <= MaxDefaultWorkers
    ensures x.Finite? && x.value <= 2.0 ==> r == Success(2)
    ensures x.Finite? && x.value >= 8.0 ==> r == Success(8)
    ensures x.Finite? && 2.0 <= x.value < 8.0 ==> r == Success(x.value.Floor)
    ensures x == NaN || x == NegInf ==> r == Success(2)
  {
    match x
    case PosInf => Failure(OverflowError("cannot convert float infinity to integer"))
    case Finite(v) =>
      if v > 2.0 then
        var n := v.Floor;
        Success(if n < MaxDefaultWorkers then n else MaxDefaultWorkers)
      else Success(2)
    case _ => Success(2)  // NaN and -inf never compare greater than 2
  }

  /**
    The number of workers. A non-empty `WEB_CONCURRENCY` is parsed with
    `int()` and must be positive, and is not capped; otherwise
    `WORKERS_PER_CORE` (default "2") is parsed with `float()`, scaled by the
    CPU count and clamped to 2..8. `parseFloat` stands for Python's `float()`
    of a string, `None` where it raises.
   */
  function Workers(env: map<string, string>, cpuCount: nat, parseFloat: string -> Option<PyFloat>): (r: Result<int, ConfigError>)
    requires cpuCount >= 1
    ensures Getenv(env, "WEB_CONCURRENCY", "") != "" ==>
      (r.Success? <==> ParseInt(env["WEB_CONCURRENCY"]).Success? && ParseInt(env["WEB_CONCURRENCY"]).value > 0)
      && (r.Success? ==> r.value == ParseInt(env["WEB_CONCURRENCY"]).value)
      && (ParseInt(env["WEB_CONCURRENCY"]).Failure? ==>
            r == Failure(ValueError(IntErrorMessage(env["WEB_CONCURRENCY"], ParseInt(env["WEB_CONCURRENCY"]).error))))
      && (ParseInt(env["WEB_CONCURRENCY"]).Success? && ParseInt(env["WEB_CONCURRENCY"]).value <= 0 ==>
            r == Failure(AssertionError))
    ensures Getenv(env, "WEB_CONCURRENCY", "") == "" && r.Success? ==> 2 <= r.value <= MaxDefaultWorkers
    ensures r.Success? ==> r.value > 0
  {
    var webConcurrency := Getenv(env, "WEB_CONCURRENCY", "");
    if webConcurrency != "" then
      match ParseInt(webConcurrency)
      case Failure(e) => Failure(ValueError(IntErrorMessage(webConcurrency, e)))
      case Success(n) => if n > 0 then Success(n) else Failure(AssertionError)
    else
      var perCore := Getenv(env, "WORKERS_PER_CORE", "2");
      match parseFloat(perCore)
      case None => Failure(ValueError("could not convert string to float: " + PyRepr(perCore)))
      case Some(f) => CapWorkers(Scale(cpuCount, f))
  }

  /** With neither variable set, the workers are twice the CPUs, at least 2 and at most 8. */
  lemma DefaultWorkers(env: map<string, string>, cpuCount: nat, parseFloat: string -> Option<PyFloat>)
    requires cpuCount >= 1
    requires "WEB_CONCURRENCY" !in env && "WORKERS_PER_CORE" !in env
    requires parseFloat("2") == Some(Finite(2.0))
    ensures Workers(env, cpuCount, parseFloat) == Success(if 2 * cpuCount < MaxDefaultWorkers then 2 * cpuCount else MaxDefaultWorkers)
  {
    var x := cpuCount as real * 2.0;
    assert x == (2 * cpuCount) as real;
    assert x.Floor == 2 * cpuCount;
  }

  /** Threads per worker: 2 below 8 GiB of memory, 4 below 16 GiB, else 8. */
  function Threads(totalMemoryBytes: nat): (t: nat)
    ensures t == 2 || t == 4 || t == 8
    ensures t == 2 <==> totalMemoryBytes < 8 * GiB
    ensures t == 8 <==> totalMemoryBytes >= 16 * GiB
  {
    var gb := totalMemoryBytes as real / GiB as real;
    if gb < 8.0 then 2 else if gb < 16.0 then 4 else 8
  }

  /** More memory never means fewer threads. */
  lemma ThreadsMonotone(a: nat, b: nat)
    requires a <= b
    ensures Threads(a) <= Threads(b)
  {
  }

  /** `BIND` when it is non-empty, else `HOST:PORT` with the defaults 0.0.0.0 and 7860. */
  function Bind(env: map<string, string>): (address: string)
    ensures Getenv(env, "BIND", "") != "" ==> address == env["BIND"]
    ensures Getenv(env, "BIND", "") == "" ==>
      address == Getenv(env, "HOST", "0.0.0.0") + ":" + Getenv(env, "PORT", "7860")
  {
    var bindEnv := Getenv(env, "BIND", "");
    if bindEnv != "" then bindEnv
    else Getenv(env, "HOST", "0.0.0.0") + ":" + Getenv(env, "PORT", "7860")
  }

  /** An environment that sets none of the three variables binds all interfaces on port 7860. */
  lemma DefaultBind(env: map<string, string>)
    requires "BIND" !in env && "HOST" !in env && "PORT" !in env
    ensures Bind(env) == "0.0.0.0:7860"
  {
  }

  /**
    Importing the module: the workers are computed first, so a bad
    `WEB_CONCURRENCY` or `WORKERS_PER_CORE` aborts the import; the rest
    cannot fail. `shmIsDir` says whether `/dev/shm` is a directory.
   */
  function Configure(env: map<string, string>, cpuCount: nat, totalMemoryBytes: nat,
                     parseFloat: string -> Option<PyFloat>, shmIsDir: bool): (r: Result<Config, ConfigError>)
    requires cpuCount >= 1
    ensures r.Success? <==> Workers(env, cpuCount, parseFloat).Success?
    ensures r.Failure? ==> r.error == Workers(env, cpuCount, parseFloat).error
    ensures r.Success? ==>
      && r.value.workers == Workers(env, cpuCount, parseFloat).value
      && r.value.threads == Threads(totalMemoryBytes)
      && r.value.bind == Bind(env)
      && r.value.timeout == 300
  {
    match Workers(env, cpuCount, parseFloat)
    case Failure(e) => Failure(e)
    case Success(w) =>
      Success(Config(Bind(env), w, Threads(totalMemoryBytes), "uvicorn.workers.UvicornWorker",
                     if shmIsDir then Some("/dev/shm") else None, 120, 300, 30))
  }
}
