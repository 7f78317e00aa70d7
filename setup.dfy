/** The local part of `Client#initialize`: reading the service URL table out
    of the `VPPServiceConfigSrv` body, and checking the client context the
    server holds against this client's hostname and GUID. */
module Setup {
  import opened Json
  import opened Protocol

  const UrlSuffix := "SrvUrl"

  /** The service a configuration key names: the key must be one or more
      characters followed by `SrvUrl`, and the name is what precedes it. */
  function ServiceNameOf(key: string): (name: Option<string>)
    ensures name.Some? <==> |key| > |UrlSuffix| && key[|key| - |UrlSuffix|..] == UrlSuffix
    ensures name.Some? ==> name.value != [] && key == name.value + UrlSuffix
  {
    if |key| > |UrlSuffix| && key[|key| - |UrlSuffix|..] == UrlSuffix
    then Some(key[..|key| - |UrlSuffix|])
    else None
  }

  /** Every non-empty service name is recovered from its configuration key. */
  lemma ServiceNameRoundTrip(name: string)
    requires name != []
    ensures ServiceNameOf(name + UrlSuffix) == Some(name)
  {
    var key := name + UrlSuffix;
    assert key[|key| - |UrlSuffix|..] == UrlSuffix;
    assert key[..|key| - |UrlSuffix|] == name;
  }

  /** The bare suffix names no service. */
  lemma BareSuffixIsNoService()
    ensures ServiceNameOf(UrlSuffix) == None
  {
  }

  /** The entries the configuration body's `each` loop records, in body
      order, a later key overwriting an earlier one of the same service. */
  function ServiceUrlTable(entries: seq<(string, Value)>): (t: map<string, Value>)
    ensures forall name :: name in t ==>
              exists i :: 0 <= i < |entries| && ServiceNameOf(entries[i].0) == Some(name)
    decreases |entries|
  {
    if entries == [] then map[]
    else
      var table := ServiceUrlTable(entries[..|entries| - 1]);
      var last := entries[|entries| - 1];
      assert forall i :: 0 <= i < |entries| - 1 ==> entries[..|entries| - 1][i] == entries[i];
      match ServiceNameOf(last.0)
      case Some(name) => table[name := last.1]
      case None => table
  }

  /** One more entry of the loop: its service, if it names one, is set. */
  lemma ServiceUrlTableStep(entries: seq<(string, Value)>, i: nat)
    requires i < |entries|
    ensures ServiceUrlTable(entries[..i + 1]) ==
              match ServiceNameOf(entries[i].0)
              case Some(name) => ServiceUrlTable(entries[..i])[name := entries[i].1]
              case None => ServiceUrlTable(entries[..i])
  {
    assert entries[..i + 1][..i] == entries[..i];
    assert entries[..i + 1][i] == entries[i];
  }

  /** A hash never holds one key twice. */
  predicate DistinctKeys(entries: seq<(string, Value)>)
  {
    forall i, j :: 0 <= i < j < |entries| ==> entries[i].0 != entries[j].0
  }

  /** A service is in the table exactly when some key is its name followed
      by `SrvUrl`; with distinct keys its URL is that key's value. */
  lemma {:induction false} ServiceUrlTableContents(entries: seq<(string, Value)>, name: string)
    requires DistinctKeys(entries)
    ensures name in ServiceUrlTable(entries) <==>
              exists i :: 0 <= i < |entries| && entries[i].0 == name + UrlSuffix && name != []
    ensures forall i :: 0 <= i < |entries| && entries[i].0 == name + UrlSuffix && name != [] ==>
              name in ServiceUrlTable(entries) && ServiceUrlTable(entries)[name] == entries[i].1
    decreases |entries|
  {
    if entries != [] {
      var init := entries[..|entries| - 1];
      var last := entries[|entries| - 1];
      assert DistinctKeys(init);
      ServiceUrlTableContents(init, name);
      if name != [] {
        ServiceNameRoundTrip(name);
      }
      if ServiceNameOf(last.0) == Some(name) {
        assert last.0 == name + UrlSuffix;
      }
      forall i | 0 <= i < |entries| && entries[i].0 == name + UrlSuffix && name != []
        ensures name in ServiceUrlTable(entries) && ServiceUrlTable(entries)[name] == entries[i].1
      {
        if i < |entries| - 1 {
          assert entries[i] == init[i];
          assert entries[i].0 != last.0;
        }
      }
      if exists i :: 0 <= i < |entries| && entries[i].0 == name + UrlSuffix && name != [] {
        var i :| 0 <= i < |entries| && entries[i].0 == name + UrlSuffix && name != [];
        if i < |entries| - 1 {
          assert init[i] == entries[i];
        }
      }
      if name in ServiceUrlTable(entries) && ServiceNameOf(last.0) != Some(name) {
        var i :| 0 <= i < |init| && init[i].0 == name + UrlSuffix && name != [];
        assert entries[i] == init[i];
      }
    }
  }

  // ---- Client context ----

  /** The context a client registers when the server holds none:
      `{hostname: client_host, guid: client_guid}`. */
  function RegisteredContext(host: string, guid: string): Value
  {
    Obj(map["hostname" := Str(host), "guid" := Str(guid)])
  }

  /** The hostname and GUID check: the decoded context must be an object
      whose `hostname` and `guid` are this client's. */
  function CheckClientContext(context: Value, host: string, guid: string): (o: Outcome)
    ensures o.Pass? <==> context.Obj? && Get(context.fields, "hostname") == Str(host)
                                      && Get(context.fields, "guid") == Str(guid)
    ensures o.Fail? && context.Obj? ==>
              o.error == ContextMismatch(Get(context.fields, "hostname"), Get(context.fields, "guid"))
  {
    match context
    case Obj(fields) =>
      if Get(fields, "hostname") == Str(host) && Get(fields, "guid") == Str(guid) then Pass
      else Fail(ContextMismatch(Get(fields, "hostname"), Get(fields, "guid")))
    case _ => Fail(BadClientContext(context))
  }

  /** A context the server stores as registered passes the check for the
      same client and fails it for any other hostname or GUID. */
  lemma RegisteredContextPasses(host: string, guid: string, otherHost: string, otherGuid: string)
    ensures CheckClientContext(RegisteredContext(host, guid), host, guid) == Pass
    ensures otherHost != host || otherGuid != guid ==>
              CheckClientContext(RegisteredContext(host, guid), otherHost, otherGuid).Fail?
  {
  }
}
