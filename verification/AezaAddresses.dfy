/** Reading Aeza's IPv4 list (app/ip_change.py:80-122, 159-224). */
module AezaAddresses {
  import opened Base

  datatype Item = Item(id: string, ip: string, isMain: bool)

  function FirstMain(items: seq<Item>): (r: Option<Item>)
    ensures r.Some? ==> r.value in items && r.value.isMain
    ensures r.None? ==> forall i | i in items :: !i.isMain
  {
    if items == [] then None
    else if items[0].isMain then Some(items[0])
    else FirstMain(items[1..])
  }

  function FirstWithIp(items: seq<Item>, ip: string): (r: Option<Item>)
    ensures r.Some? ==> r.value in items && r.value.ip == ip
    ensures r.None? ==> forall i | i in items :: i.ip != ip
  {
    if items == [] then None
    else if items[0].ip == ip then Some(items[0])
    else FirstWithIp(items[1..], ip)
  }

  function FirstWithId(items: seq<Item>, id: string): (r: Option<Item>)
    ensures r.Some? ==> r.value in items && r.value.id == id
    ensures r.None? ==> forall i | i in items :: i.id != id
  {
    if items == [] then None
    else if items[0].id == id then Some(items[0])
    else FirstWithId(items[1..], id)
  }

  /** _find_main_ip; None stands for IpChangeError. */
  function FindMainIp(items: seq<Item>, currentIp: string): Option<Item> {
    var main := FirstMain(items);
    if main.Some? then (if currentIp != "" && main.value.ip != currentIp then None else main)
    else if currentIp != "" then FirstWithIp(items, currentIp)
    else None
  }

  function Candidates(items: seq<Item>, oldId: string, oldIp: string, knownIds: set<string>, knownIps: set<string>)
    : (r: seq<Item>)
    ensures forall i :: i in r <==>
      i in items && i.id != oldId && i.ip != oldIp && i.id !in knownIds && i.ip !in knownIps
  {
    if items == [] then []
    else
      var i := items[0];
      var rest := Candidates(items[1..], oldId, oldIp, knownIds, knownIps);
      if i.id != oldId && i.ip != oldIp && i.id !in knownIds && i.ip !in knownIps then [i] + rest else rest
  }

  /** _find_new_ip, with the caller's test that both fields are set */
  function FindNewIp(items: seq<Item>, oldId: string, oldIp: string, createdId: string, createdIp: string,
                     knownIds: set<string>, knownIps: set<string>): Option<Item>
  {
    var found :=
      if createdId != "" then FirstWithId(items, createdId)
      else if createdIp != "" && createdIp !in knownIps then FirstWithIp(items, createdIp)
      else
        var candidates := Candidates(items, oldId, oldIp, knownIds, knownIps);
        if |candidates| == 1 then Some(candidates[0]) else None;
    if found.Some? && found.value.id != "" && found.value.ip != "" then found else None
  }

  /* ---------- what a list that tells the truth lets the code conclude ---------- */

  /** Every row of the list is an address of the server, flagged exactly when it is the main one, and the main
      one is listed. */
  ghost predicate Truthful(items: seq<Item>, addrs: map<string, string>, main: string) {
    && (forall i | i in items :: i.id in addrs && addrs[i.id] == i.ip && (i.isMain <==> i.id == main))
    && (exists i | i in items :: i.id == main)
  }

  /** The main address is found exactly when it is the published one or nothing is published yet. */
  lemma FindMainIpIsMain(items: seq<Item>, addrs: map<string, string>, main: string, currentIp: string)
    requires Truthful(items, addrs, main)
    ensures main in addrs
    ensures FindMainIp(items, currentIp).Some? <==> currentIp == "" || addrs[main] == currentIp
    ensures FindMainIp(items, currentIp).Some? ==> FindMainIp(items, currentIp).value == Item(main, addrs[main], true)
  {
    var i :| i in items && i.id == main;
    assert i.isMain;
  }

  /** A new address is never the old one, provided the provider does not hand out an id that is in use. */
  lemma FindNewIpIsNew(items: seq<Item>, addrs: map<string, string>, main: string, oldId: string, oldIp: string,
                       createdId: string, createdIp: string, knownIds: set<string>, knownIps: set<string>)
    requires Truthful(items, addrs, main) && oldId in knownIds && oldIp in knownIps
    requires oldId in addrs ==> addrs[oldId] == oldIp
    requires createdId !in knownIds
    ensures var r := FindNewIp(items, oldId, oldIp, createdId, createdIp, knownIds, knownIps);
            r.Some? ==> && r.value in items && r.value.id != oldId && r.value.id != "" && r.value.ip != ""
                        && r.value.id in addrs && addrs[r.value.id] == r.value.ip
  {
    var r := FindNewIp(items, oldId, oldIp, createdId, createdIp, knownIds, knownIps);
    if r.Some? {
      assert r.value in items by {
        var candidates := Candidates(items, oldId, oldIp, knownIds, knownIps);
        assert |candidates| == 1 ==> candidates[0] in candidates;
      }
    }
  }
}
