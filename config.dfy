/** `ConfigBuilder` and `Config` of rust/sample3.rs. The setters take the
    builder by value and return it, so the builder is a value here and each
    setter a record update. */
module Configs {
  import opened Ints
  import opened Variants
  import opened Errors

  const DefaultPort: u16 := 8080
  const DefaultTimeout: u64 := 30
  const HostRequired: string := "Host is required"

  /** The immutable result of a successful `build`. */
  datatype Config = Config(host: string, port: u16, timeout: u64) {
    /** `get_host` */
    function GetHost(): (h: string)
      ensures h == host
    {
      host
    }

    /** `get_port` */
    function GetPort(): (p: u16)
      ensures p == port
    {
      port
    }

    /** `get_timeout` */
    function GetTimeout(): (t: u64)
      ensures t == timeout
    {
      timeout
    }
  }

  datatype ConfigBuilder = ConfigBuilder(host: Option<string>, port: Option<u16>, timeout: Option<u64>) {

    /** `host`: sets the host and nothing else. */
    function Host(h: string): (b: ConfigBuilder)
      ensures b.host == Some(h) && b.port == port && b.timeout == timeout
    {
      this.(host := Some(h))
    }

    /** `port`: sets the port and nothing else. */
    function Port(p: u16): (b: ConfigBuilder)
      ensures b.port == Some(p) && b.host == host && b.timeout == timeout
    {
      this.(port := Some(p))
    }

    /** `timeout`: sets the timeout and nothing else. */
    function Timeout(t: u64): (b: ConfigBuilder)
      ensures b.timeout == Some(t) && b.host == host && b.port == port
    {
      this.(timeout := Some(t))
    }

    /** `build`: fails exactly when no host was set; otherwise keeps the
        host and takes each of port and timeout from the builder, or its
        default when unset. No range check is made on port or timeout. */
    function Build(): (r: AppResult<Config>)
      ensures r.IsErr() <==> host.IsNone()
      ensures r.IsErr() ==> r.error == InvalidInput(HostRequired)
      ensures r.IsOk() ==> r.value.GetHost() == host.Unwrap()
      ensures r.IsOk() ==> r.value.GetPort() == (if port.IsSome() then port.Unwrap() else DefaultPort)
      ensures r.IsOk() ==> r.value.GetTimeout() == (if timeout.IsSome() then timeout.Unwrap() else DefaultTimeout)
    {
      match host
      case None => Err(InvalidInput(HostRequired))
      case Some(h) =>
        var p := match port case Some(v) => v case None => DefaultPort;
        var t := match timeout case Some(v) => v case None => DefaultTimeout;
        Ok(Config(h, p, t))
    }
  }

  /** `ConfigBuilder::new`: nothing set. */
  function NewBuilder(): (b: ConfigBuilder)
    ensures b.host.IsNone() && b.port.IsNone() && b.timeout.IsNone()
  {
    ConfigBuilder(None, None, None)
  }

  /** A setter called twice keeps the last value; setters of different
      fields commute. */
  lemma SettersLastWriteWins(b: ConfigBuilder, h1: string, h2: string, p1: u16, p2: u16, t1: u64, t2: u64)
    ensures b.Host(h1).Host(h2) == b.Host(h2)
    ensures b.Port(p1).Port(p2) == b.Port(p2)
    ensures b.Timeout(t1).Timeout(t2) == b.Timeout(t2)
    ensures b.Host(h1).Port(p1) == b.Port(p1).Host(h1)
    ensures b.Host(h1).Timeout(t1) == b.Timeout(t1).Host(h1)
    ensures b.Port(p1).Timeout(t1) == b.Timeout(t1).Port(p1)
  {
  }

  /** Whatever else was set, a builder with a host builds successfully and
      one without fails with the same error. */
  lemma HostSufficesToBuild(b: ConfigBuilder, h: string)
    ensures b.Host(h).Build().IsOk()
    ensures b.Host(h).Build().Unwrap().GetHost() == h
    ensures NewBuilder().Build() == Err(InvalidInput(HostRequired))
  {
  }

  /** `new().port(9090).build()` fails; `new().host("x").build()` applies
      both defaults. */
  lemma BuildExamples()
    ensures NewBuilder().Port(9090).Build() == Err(InvalidInput("Host is required"))
    ensures NewBuilder().Host("x").Build() == Ok(Config("x", 8080, 30))
    ensures NewBuilder().Timeout(5).Host("h").Port(1).Build() == Ok(Config("h", 1, 5))
  {
  }
}
