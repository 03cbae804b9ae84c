/**
 * The Valetudo client: one object per robot address, one method per robot
 * operation. Each operation builds its request from the command table, hands it
 * to the transport through the GET or PUT primitive and returns the classified
 * result; numeric inputs are sent as decimal strings, volume and fan speed
 * clamped to [0, 100] first.
 */
module Client {
  import opened Options
  import opened Decimal
  import opened Endpoints
  import opened Http
  import opened Errors

  const MinLevel := 0
  const MaxLevel := 100

  /** Saturate a volume or fan-speed level at the bounds of [0, 100]. */
  function Clamp(v: int): (c: int)
    ensures MinLevel <= c <= MaxLevel
    ensures MinLevel <= v <= MaxLevel ==> c == v
    ensures v < MinLevel ==> c == MinLevel
    ensures v > MaxLevel ==> c == MaxLevel
  {
    if v < MinLevel then MinLevel else if v > MaxLevel then MaxLevel else v
  }

  lemma ClampIdempotent(v: int)
    ensures Clamp(Clamp(v)) == Clamp(v)
  {
  }

  /**
   * The body of a volume or fan-speed change: the clamped level, as a string,
   * under the single key `key` ("volume" or "speed").
   */
  function LevelPayload(key: string, level: int): (p: Payload)
    ensures p.Keys == {key}
    ensures AllDigits(p[key]) && |p[key]| > 0
    ensures ParseNat(p[key]) == Clamp(level)
  {
    var c := Clamp(level);
    NonNegativeIsDigits(c);
    map[key := IntToString(c)]
  }

  /** The body of a go-to: both coordinates, unclamped, as strings under "x" and "y". */
  function GoToPayload(x: int, y: int): (p: Payload)
    ensures p.Keys == {"x", "y"}
    ensures IsIntLiteral(p["x"]) && ParseInt(p["x"]) == x
    ensures IsIntLiteral(p["y"]) && ParseInt(p["y"]) == y
  {
    IntRoundTrip(x);
    IntRoundTrip(y);
    map["x" := IntToString(x), "y" := IntToString(y)]
  }

  /** The defaults of go-to send the origin. */
  lemma GoToDefaults()
    ensures GoToPayload(0, 0) == map["x" := "0", "y" := "0"]
  {
  }

  /** The `token` field of a response body; anything else is a failed lookup. */
  function TokenField(body: Json): (r: Result<Json>)
    ensures r.Ok? <==> body.Object? && "token" in body.fields
    ensures r.Ok? ==> r.value == body.fields["token"]
    ensures r.Err? ==> r.error == LookupError("token")
  {
    if body.Object? && "token" in body.fields then Ok(body.fields["token"]) else Err(LookupError("token"))
  }

  /**
   * The request issued for a command: the verb the command table assigns to it,
   * the command's URL under the client's address, and the optional body. Every
   * operation's contract states its requests through this function, so an
   * operation that used the wrong verb for its command would not verify.
   */
  function Call(ip: string, e: Endpoint, payload: Option<Payload>): HttpRequest {
    HttpRequest(VerbOf(e), Url(ip, Name(e)), payload)
  }

  /**
   * Every issued request can be traced back to the table: its URL names exactly the
   * command it was built for, and its verb is the one the table assigns to the
   * command its URL names.
   */
  lemma CallsFollowTable(ip: string, e: Endpoint, payload: Option<Payload>)
    ensures var r := Call(ip, e, payload);
      && EndpointOf(r.url) == Some(e)
      && r.verb == VerbOf(EndpointOf(r.url).value)
      && (r.verb == Get <==> Name(EndpointOf(r.url).value) in GetCommandNames)
  {
    UrlRoundTrip(ip, e);
  }

  class Valetudo {
    const ip: string
    const net: Network

    /** No validation of the address: a bad one only shows up as a connection error. */
    constructor (ip: string, net: Network)
      ensures this.ip == ip && this.net == net
    {
      this.ip := ip;
      this.net := net;
    }

    /** GET `http://{ip}/api/{endpoint}` and classify the outcome. */
    method GetRequest(endpoint: string) returns (r: Result<Json>)
      modifies net
      ensures net.log == old(net.log) + [HttpRequest(Get, Url(ip, endpoint), None)]
      ensures r == Classify(old(net.Next(HttpRequest(Get, Url(ip, endpoint), None))))
    {
      var o := net.Exchange(HttpRequest(Get, Url(ip, endpoint), None));
      r := Classify(o);
    }

    /** PUT `http://{ip}/api/{endpoint}` with an optional JSON body and classify the outcome. */
    method PutRequest(endpoint: string, msg: Option<Payload>) returns (r: Result<Json>)
      modifies net
      ensures net.log == old(net.log) + [HttpRequest(Put, Url(ip, endpoint), msg)]
      ensures r == Classify(old(net.Next(HttpRequest(Put, Url(ip, endpoint), msg))))
    {
      var o := net.Exchange(HttpRequest(Put, Url(ip, endpoint), msg));
      r := Classify(o);
    }

    method GetToken() returns (r: Result<Json>)
      modifies net
      ensures net.log == old(net.log) + [Call(ip, Token, None)]
      ensures var got := Classify(old(net.Next(Call(ip, Token, None))));
        r == if got.Err? then got else TokenField(got.value)
    {
      var got := GetRequest(Name(Token));
      if got.Err? {
        return got;
      }
      r := TokenField(got.value);
    }

    method GetStatus() returns (r: Result<Json>)
      modifies net
      ensures net.log == old(net.log) + [Call(ip, Status, None)]
      ensures r == Classify(old(net.Next(Call(ip, Status, None))))
    {
      r := GetRequest(Name(Status));
    }

    method GetConsumable() returns (r: Result<Json>)
      modifies net
      ensures net.log == old(net.log) + [Call(ip, Wear, None)]
      ensures r == Classify(old(net.Next(Call(ip, Wear, None))))
    {
      r := GetRequest(Name(Wear));
    }

    method GetVolume() returns (r: Result<Json>)
      modifies net
      ensures net.log == old(net.log) + [Call(ip, Endpoints.GetVolume, None)]
      ensures r == Classify(old(net.Next(Call(ip, Endpoints.GetVolume, None))))
    {
      r := GetRequest(Name(Endpoints.GetVolume));
    }

    method SetVolume(value: int) returns (r: Result<Json>)
      modifies net
      ensures net.log == old(net.log) + [Call(ip, Endpoints.SetVolume, Some(LevelPayload("volume", value)))]
      ensures r == Classify(old(net.Next(Call(ip, Endpoints.SetVolume, Some(LevelPayload("volume", value))))))
    {
      var v := value;
      if v < 0 {
        v := 0;
      }
      if v > 100 {
        v := 100;
      }
      var data := map["volume" := IntToString(v)];
      r := PutRequest(Name(Endpoints.SetVolume), Some(data));
    }

    method Find() returns (r: Result<Json>)
      modifies net
      ensures net.log == old(net.log) + [Call(ip, Endpoints.Find, None)]
      ensures r == Classify(old(net.Next(Call(ip, Endpoints.Find, None))))
    {
      r := PutRequest(Name(Endpoints.Find), None);
    }

    method TestVolume() returns (r: Result<Json>)
      modifies net
      ensures net.log == old(net.log) + [Call(ip, Endpoints.TestVolume, None)]
      ensures r == Classify(old(net.Next(Call(ip, Endpoints.TestVolume, None))))
    {
      r := PutRequest(Name(Endpoints.TestVolume), None);
    }

    method StartCleaning() returns (r: Result<Json>)
      modifies net
      ensures net.log == old(net.log) + [Call(ip, Start, None)]
      ensures r == Classify(old(net.Next(Call(ip, Start, None))))
    {
      r := PutRequest(Name(Start), None);
    }

    method StopCleaning() returns (r: Result<Json>)
      modifies net
      ensures net.log == old(net.log) + [Call(ip, Stop, None)]
      ensures r == Classify(old(net.Next(Call(ip, Stop, None))))
    {
      r := PutRequest(Name(Stop), None);
    }

    method PauseCleaning() returns (r: Result<Json>)
      modifies net
      ensures net.log == old(net.log) + [Call(ip, Pause, None)]
      ensures r == Classify(old(net.Next(Call(ip, Pause, None))))
    {
      r := PutRequest(Name(Pause), None);
    }

    /**
     * Stop, then drive home. A failed stop is returned as it is and the drive-home
     * request is never issued; after a successful stop its body is dropped and the
     * result is that of the drive-home request.
     */
    method SendHome() returns (r: Result<Json>)
      modifies net
      ensures var stop := Classify(old(net.Next(Call(ip, Stop, None))));
        if stop.Err? then
          net.log == old(net.log) + [Call(ip, Stop, None)] && r == stop
        else
          && net.log == old(net.log) + [Call(ip, Stop, None), Call(ip, Home, None)]
          && r == Classify(net.respond(|old(net.log)| + 1, Call(ip, Home, None)))
    {
      ghost var sent := net.log;
      var stop := StopCleaning();
      if stop.Err? {
        return stop;
      }
      ghost var home := Call(ip, Home, None);
      assert home == HttpRequest(Put, Url(ip, Name(Home)), None);
      r := PutRequest(Name(Home), None);
      assert net.log == sent + [Call(ip, Stop, None), home];
    }

    method GoTo(x: int := 0, y: int := 0) returns (r: Result<Json>)
      modifies net
      ensures net.log == old(net.log) + [Call(ip, Endpoints.GoTo, Some(GoToPayload(x, y)))]
      ensures r == Classify(old(net.Next(Call(ip, Endpoints.GoTo, Some(GoToPayload(x, y))))))
    {
      var data := map["x" := IntToString(x), "y" := IntToString(y)];
      r := PutRequest(Name(Endpoints.GoTo), Some(data));
    }

    method SetFanspeed(speed: int) returns (r: Result<Json>)
      modifies net
      ensures net.log == old(net.log) + [Call(ip, Speed, Some(LevelPayload("speed", speed)))]
      ensures r == Classify(old(net.Next(Call(ip, Speed, Some(LevelPayload("speed", speed))))))
    {
      var s := speed;
      if s < 0 {
        s := 0;
      }
      if s > 100 {
        s := 100;
      }
      var data := map["speed" := IntToString(s)];
      r := PutRequest(Name(Speed), Some(data));
    }

    /** Fire and forget: failures propagate, but a successful body is not handed back. */
    method StartSpotCleaning() returns (r: Result<()>)
      modifies net
      ensures net.log == old(net.log) + [Call(ip, Spot, None)]
      ensures var got := Classify(old(net.Next(Call(ip, Spot, None))));
        r == if got.Err? then Err(got.error) else Ok(())
    {
      var got := PutRequest(Name(Spot), None);
      if got.Err? {
        return Err(got.error);
      }
      r := Ok(());
    }
  }
}
