/**
  The host record the generator collects and the inventory tree it hands to the
  JSON serialiser: `Host.to_ansible_dict` and the dictionary built in `generate`.
 */
module Inventory {
  import opened Wrappers
  import opened JsonValue
  import opened Answers
  import PyInt
  import Patterns

  /** The `Host` dataclass: address, inventory name, SSH port and SSH user. */
  datatype Host = Host(host: string, hostname: string, port: int, user: string)

  /** `Host()` with every field defaulted, the port taken as the integer 22. */
  const DefaultHost := Host("", "localhost", 22, "root")

  /** The inventory group every generated host is placed in. */
  const GroupName := "openfire_server"

  const VarNames := ["ansible_host", "ansible_port", "ansible_user"]

  /** The inner dictionary literal of `to_ansible_dict`, over already-converted leaves. */
  function HostVarsOf(host: Json, port: Json, user: Json): Json
  {
    JObject([("ansible_host", host), ("ansible_port", port), ("ansible_user", user)])
  }

  /** The dictionary literal of `to_ansible_dict`, over already-converted leaves. */
  function AnsibleDictOf(hostname: string, host: Json, port: Json, user: Json): Json
  {
    JObject([(hostname, HostVarsOf(host, port, user))])
  }

  /** The inner dictionary has the three connection keys, in order, each naming its own leaf. */
  lemma HostVarsShape(host: Json, port: Json, user: Json)
    ensures var vars := HostVarsOf(host, port, user);
      Keys(vars) == VarNames &&
      Get(vars.members, "ansible_host") == Some(host) &&
      Get(vars.members, "ansible_port") == Some(port) &&
      Get(vars.members, "ansible_user") == Some(user)
  {
    var ms := HostVarsOf(host, port, user).members;
    assert ms[1..] == [("ansible_port", port), ("ansible_user", user)];
    assert ms[1..][1..] == [("ansible_user", user)];
    assert Get(ms[1..][1..], "ansible_user") == Some(user);
    assert Get(ms[1..], "ansible_user") == Some(user);
  }

  /** `Host.to_ansible_dict` */
  function ToAnsibleDict(h: Host): Json
  {
    AnsibleDictOf(h.hostname, JString(h.host), JNumber(h.port), JString(h.user))
  }

  /** The dictionary `generate` passes to `json.dump`. */
  function BuildInventory(h: Host): Json
  {
    JObject([(GroupName, JObject([("hosts", ToAnsibleDict(h))]))])
  }

  /** Reads a host back from a `to_ansible_dict`-shaped tree, or None for any other tree. */
  function HostFromAnsibleDict(j: Json): Option<Host>
  {
    if j.JObject? && |j.members| == 1 && j.members[0].1.JObject? && Keys(j.members[0].1) == VarNames then
      var name := j.members[0].0;
      var vars := j.members[0].1.members;
      match (vars[0].1, vars[1].1, vars[2].1)
      case (JString(a), JNumber(p), JString(u)) => Some(Host(a, name, p, u))
      case _ => None
    else None
  }

  /** Reads a host back from an inventory with exactly one group and one host, or None. */
  function HostFromInventory(j: Json): Option<Host>
  {
    if Keys(j) == [GroupName] && Keys(j.members[0].1) == ["hosts"] then
      HostFromAnsibleDict(j.members[0].1.members[0].1)
    else None
  }

  /** Looking a path up in an object is looking its tail up in the child its head names. */
  lemma LookupStep(j: Json, key: string, path: seq<string>)
    requires j.JObject? && Get(j.members, key).Some?
    ensures Lookup(j, [key] + path) == Lookup(Get(j.members, key).value, path)
  {
  }

  /** `to_ansible_dict` loses nothing: the host can be read back from it. */
  lemma AnsibleDictRoundTrip(h: Host)
    ensures HostFromAnsibleDict(ToAnsibleDict(h)) == Some(h)
  {
  }

  /** The written inventory determines the host record it was built from. */
  lemma InventoryRoundTrip(h: Host)
    ensures HostFromInventory(BuildInventory(h)) == Some(h)
  {
  }

  /**
    The reader accepts nothing but generated inventories: a tree it reads a host from
    is exactly the inventory of that host, so `generate` writes that shape and adds
    nothing else.
   */
  lemma InventoryDecodeExact(j: Json, h: Host)
    requires HostFromInventory(j) == Some(h)
    ensures j == BuildInventory(h)
  {
    var group := j.members[0].1;
    var dict := group.members[0].1;
    var vars := dict.members[0].1;
    KeysOfObject(j);
    KeysOfObject(group);
    KeysOfObject(vars);
    assert vars.members[0].0 == "ansible_host" && vars.members[1].0 == "ansible_port"
      && vars.members[2].0 == "ansible_user";
    assert vars.members == [("ansible_host", JString(h.host)), ("ansible_port", JNumber(h.port)),
                            ("ansible_user", JString(h.user))];
    assert dict == ToAnsibleDict(h);
    assert group.members == [("hosts", dict)];
    assert j.members == [(GroupName, group)];
  }

  /**
    The value the inventory holds at `openfire_server -> hosts -> <hostname> -> key`
    is the record's field for that key: its address, its port as a number, its user.
   */
  lemma LookupHostVar(h: Host, key: string)
    requires key in VarNames
    ensures Lookup(BuildInventory(h), [GroupName, "hosts", h.hostname, key])
         == Get(ToAnsibleDict(h).members[0].1.members, key)
    ensures key == "ansible_host" ==>
      Lookup(BuildInventory(h), [GroupName, "hosts", h.hostname, key]) == Some(JString(h.host))
    ensures key == "ansible_port" ==>
      Lookup(BuildInventory(h), [GroupName, "hosts", h.hostname, key]) == Some(JNumber(h.port))
    ensures key == "ansible_user" ==>
      Lookup(BuildInventory(h), [GroupName, "hosts", h.hostname, key]) == Some(JString(h.user))
  {
    var inv := BuildInventory(h);
    var group := inv.members[0].1;
    var dict := ToAnsibleDict(h);
    var vars := dict.members[0].1;
    HostVarsShape(JString(h.host), JNumber(h.port), JString(h.user));
    LookupStep(inv, GroupName, ["hosts", h.hostname, key]);
    assert [GroupName] + ["hosts", h.hostname, key] == [GroupName, "hosts", h.hostname, key];
    LookupStep(group, "hosts", [h.hostname, key]);
    assert ["hosts"] + [h.hostname, key] == ["hosts", h.hostname, key];
    LookupStep(dict, h.hostname, [key]);
    assert [h.hostname] + [key] == [h.hostname, key];
    LookupStep(vars, key, []);
    assert [key] + [] == [key];
  }

  /**
    The inventory is the tree `openfire_server -> hosts -> <hostname>` with exactly the
    keys `ansible_host`, `ansible_port`, `ansible_user` under it, holding the record's
    address, port and user.
   */
  lemma InventoryShape(h: Host)
    ensures var inv := BuildInventory(h);
      Keys(inv) == [GroupName] &&
      Lookup(inv, [GroupName]).Some? && Keys(Lookup(inv, [GroupName]).value) == ["hosts"] &&
      Lookup(inv, [GroupName, "hosts"]) == Some(ToAnsibleDict(h)) &&
      Keys(ToAnsibleDict(h)) == [h.hostname] &&
      Lookup(ToAnsibleDict(h), [h.hostname]).Some? &&
      Keys(Lookup(ToAnsibleDict(h), [h.hostname]).value) == VarNames &&
      Lookup(inv, [GroupName, "hosts", h.hostname, "ansible_host"]) == Some(JString(h.host)) &&
      Lookup(inv, [GroupName, "hosts", h.hostname, "ansible_port"]) == Some(JNumber(h.port)) &&
      Lookup(inv, [GroupName, "hosts", h.hostname, "ansible_user"]) == Some(JString(h.user))
  {
    var inv := BuildInventory(h);
    var group := inv.members[0].1;
    var dict := ToAnsibleDict(h);
    HostVarsShape(JString(h.host), JNumber(h.port), JString(h.user));
    LookupStep(inv, GroupName, []);
    assert [GroupName] + [] == [GroupName];
    LookupStep(inv, GroupName, ["hosts"]);
    assert [GroupName] + ["hosts"] == [GroupName, "hosts"];
    LookupStep(group, "hosts", []);
    assert ["hosts"] + [] == ["hosts"];
    LookupStep(dict, h.hostname, []);
    assert [h.hostname] + [] == [h.hostname];
    LookupHostVar(h, "ansible_host");
    LookupHostVar(h, "ansible_port");
    LookupHostVar(h, "ansible_user");
  }

  /** No object in the inventory repeats a key, as none of the dictionaries built at lines 21-27 and 118 can. */
  lemma InventoryKeysDistinct(h: Host)
    ensures var inv := BuildInventory(h);
      DistinctKeys(inv) && DistinctKeys(inv.members[0].1) &&
      DistinctKeys(ToAnsibleDict(h)) && DistinctKeys(ToAnsibleDict(h).members[0].1)
  {
    var vars := ToAnsibleDict(h).members[0].1;
    assert Keys(vars) == VarNames;
    assert VarNames[0] != VarNames[1] && VarNames[0] != VarNames[2] && VarNames[1] != VarNames[2];
  }

  /** `Host()` as written: line 17 gives the port field the string "22". */
  function DefaultAnsibleDictAsWritten(): Json
  {
    AnsibleDictOf("localhost", JString(""), JString("22"), JString("root"))
  }

  /** As written, the default record's port reaches the inventory as text, not a number. */
  lemma DefaultPortAsWrittenIsText()
    ensures Lookup(DefaultAnsibleDictAsWritten(), ["localhost", "ansible_port"]) == Some(JString("22"))
    ensures HostFromAnsibleDict(DefaultAnsibleDictAsWritten()) == None
  {
  }

  /** With the port an integer, the default record's port is the number 22, the port prompt's default. */
  lemma DefaultPortIsNumber()
    ensures Lookup(ToAnsibleDict(DefaultHost), ["localhost", "ansible_port"]) == Some(JNumber(DefaultPort))
    ensures HostFromAnsibleDict(ToAnsibleDict(DefaultHost)) == Some(DefaultHost)
  {
  }

  /** An empty answer to the hostname prompt takes its default, `localhost`. */
  lemma HostnameExample()
    ensures HostnameAnswer("", "localhost") == Accept("localhost")
  {
    HostnameAnswerMeaning("", "localhost");
  }

  /** `deploy` is a well-formed user name, so the user prompt returns it. */
  lemma UserExample()
    ensures UserAnswer("deploy", "root") == Accept("deploy")
  {
    Patterns.UserNameIsMatched("deploy");
    UserAnswerMeaning("deploy", "root");
  }

  /** The inventory of the example session's host, written out in full. */
  lemma ExampleInventory()
    ensures BuildInventory(Host("198.51.100.7", "localhost", 2222, "deploy")) ==
      JObject([("openfire_server", JObject([("hosts", JObject([("localhost", JObject([
        ("ansible_host", JString("198.51.100.7")),
        ("ansible_port", JNumber(2222)),
        ("ansible_user", JString("deploy"))]))]))]))])
  {
  }

  /**
    A session where the operator leaves the hostname empty, types 2222 for the port and
    `deploy` for the user yields the host named `localhost` and this inventory.
   */
  lemma ExampleSession()
    ensures HostnameAnswer("", "localhost") == Accept("localhost")
    ensures PortAnswer("2222") == Accept(2222)
    ensures UserAnswer("deploy", "root") == Accept("deploy")
    ensures BuildInventory(Host("198.51.100.7", "localhost", 2222, "deploy")) ==
      JObject([("openfire_server", JObject([("hosts", JObject([("localhost", JObject([
        ("ansible_host", JString("198.51.100.7")),
        ("ansible_port", JNumber(2222)),
        ("ansible_user", JString("deploy"))]))]))]))])
  {
    HostnameExample();
    PortExample();
    UserExample();
    ExampleInventory();
  }
}
