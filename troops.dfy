/**
  The troop order of send_troops.py: the `TROOPS` form template, the
  `TroopsOrder` object, the availability rule, the form data of the two
  POST requests and the rewrite of the raids file.

  The HTTP session, the pages it fetches and the raids file are replaced by
  their contents: the hidden inputs and unit tags the parser finds on each
  page, and the lines of the file.
 */
module Troops {
  import opened Common

  /** A form value: Python `int` or `str`. */
  datatype FormValue = IntVal(i: int) | StrVal(s: string)

  // ---------------------------------------------------------------------
  // Constants
  // ---------------------------------------------------------------------

  /** `'t' + str(i)` */
  function TroopKey(i: int): string
  {
    "t" + IntToString(i)
  }

  /** `TROOPS = {'t' + str(i): 0 for i in range(1, 12)}` */
  const Troops: map<string, FormValue> := map i | 1 <= i < 12 :: TroopKey(i) := IntVal(0)

  /** `ATTACK_TYPE = {'c': 4}` */
  const AttackType: map<string, FormValue> := map["c" := IntVal(4)]

  lemma TroopKeys()
    ensures TroopKey(1) == "t1" && TroopKey(2) == "t2" && TroopKey(3) == "t3" && TroopKey(4) == "t4"
    ensures TroopKey(5) == "t5" && TroopKey(6) == "t6" && TroopKey(7) == "t7" && TroopKey(8) == "t8"
    ensures TroopKey(9) == "t9" && TroopKey(10) == "t10" && TroopKey(11) == "t11"
  {
    assert NatToString(10) == NatToString(1) + [DigitChar(0)];
    assert NatToString(11) == NatToString(1) + [DigitChar(1)];
  }

  const TroopNames := ["t1", "t2", "t3", "t4", "t5", "t6", "t7", "t8", "t9", "t10", "t11"]

  lemma TroopKeyNames()
    ensures forall i :: 1 <= i < 12 ==> TroopKey(i) == TroopNames[i - 1]
  {
    TroopKeys();
  }

  /** `TROOPS` has exactly the keys t1 to t11, each with the value 0. */
  lemma TroopsExactly()
    ensures forall k :: k in Troops <==> k in TroopNames
    ensures forall k :: k in Troops ==> Troops[k] == IntVal(0)
  {
    TroopKeyNames();
    forall k | k in TroopNames
      ensures k in Troops
    {
      var j :| 0 <= j < |TroopNames| && TroopNames[j] == k;
      assert TroopKey(j + 1) == k;
    }
  }

  // ---------------------------------------------------------------------
  // Dictionaries
  // ---------------------------------------------------------------------

  /** An insertion-ordered dict with distinct keys, as Python keeps it. */
  predicate DistinctKeys(d: seq<(string, FormValue)>)
  {
    forall i, j :: 0 <= i < j < |d| ==> d[i].0 != d[j].0
  }

  /** The dict's mapping, the ordering forgotten; a later pair overrides an earlier one. */
  function AsMap<V>(d: seq<(string, V)>): (m: map<string, V>)
    ensures forall k :: k in m <==> exists i :: 0 <= i < |d| && d[i].0 == k
  {
    if d == [] then map[]
    else
      var last := d[|d| - 1];
      assert forall i :: 0 <= i < |d| - 1 ==> d[..|d| - 1][i] == d[i];
      AsMap(d[..|d| - 1])[last.0 := last.1]
  }

  /** The entry of `k` is the last pair with that key. */
  lemma {:induction false} AsMapLastWins<V>(d: seq<(string, V)>, i: nat)
    requires i < |d|
    requires forall j :: i < j < |d| ==> d[j].0 != d[i].0
    ensures AsMap(d)[d[i].0] == d[i].1
  {
    if i < |d| - 1 {
      AsMapLastWins(d[..|d| - 1], i);
    }
  }

  function ValueRepr(v: FormValue): string
  {
    match v
    case IntVal(i) => IntToString(i)
    case StrVal(s) => Repr(s)
  }

  /** One `key: value` entry of a printed dict. */
  function ItemRepr(kv: (string, FormValue)): string
  {
    Repr(kv.0) + ": " + ValueRepr(kv.1)
  }

  function ItemsRepr(d: seq<(string, FormValue)>): string
  {
    if d == [] then ""
    else if |d| == 1 then ItemRepr(d[0])
    else ItemRepr(d[0]) + ", " + ItemsRepr(d[1..])
  }

  /** `str(d)` of a dict of plain strings and integers. */
  function DictRepr(d: seq<(string, FormValue)>): (s: string)
    ensures |s| >= 2 && s[0] == '{' && s[|s| - 1] == '}'
  {
    "{" + ItemsRepr(d) + "}"
  }

  /** A two-entry dict prints as `{k1: v1, k2: v2}`, each key through `repr`. */
  lemma DictReprPairs(p: (string, FormValue), q: (string, FormValue))
    ensures DictRepr([p, q]) == "{" + ItemRepr(p) + ", " + ItemRepr(q) + "}"
  {
    assert [p, q][1..] == [q];
    var a, b := ItemRepr(p), ItemRepr(q);
    assert ItemsRepr([p, q]) == a + ", " + b;
    assert "{" + (a + ", " + b) + "}" == "{" + a + ", " + b + "}";
  }

  // ---------------------------------------------------------------------
  // The URL rewrite and the unit table
  // ---------------------------------------------------------------------

  /** `s.replace(pat, sub)`: every non-overlapping occurrence, scanning from the left. */
  function ReplaceAll(s: string, pat: string, sub: string): (r: string)
    requires pat != []
    ensures |pat| == |sub| ==> |r| == |s|
    decreases |s|
  {
    if s == [] then []
    else if IsPrefix(pat, s) then sub + ReplaceAll(s[|pat|..], pat, sub)
    else [s[0]] + ReplaceAll(s[1..], pat, sub)
  }

  /** Text without the pattern is copied unchanged. */
  lemma {:induction false} ReplaceAllAbsent(s: string, pat: string, sub: string)
    requires pat != [] && !Contains(s, pat)
    ensures ReplaceAll(s, pat, sub) == s
    decreases |s|
  {
    if s != [] {
      ReplaceAllAbsent(s[1..], pat, sub);
    }
  }

  /** Text in front of the first occurrence is copied unchanged. */
  lemma {:induction false} ReplaceAllBefore(a: string, rest: string, pat: string, sub: string)
    requires pat != []
    requires forall j :: 0 <= j < |a| ==> !IsPrefix(pat, (a + rest)[j..])
    ensures ReplaceAll(a + rest, pat, sub) == a + ReplaceAll(rest, pat, sub)
    decreases |a|
  {
    if a != [] {
      forall j | 0 <= j < |a| - 1
        ensures !IsPrefix(pat, (a[1..] + rest)[j..])
      {
        assert (a[1..] + rest)[j..] == (a + rest)[j + 1..];
      }
      ReplaceAllBefore(a[1..], rest, pat, sub);
      assert (a + rest)[1..] == a[1..] + rest;
      assert (a + rest)[0..] == a + rest;
      assert a == [a[0]] + a[1..];
    } else {
      assert a + rest == rest;
    }
  }

  /**
    The overview URL: a barracks URL with a single "tt=2" gets "tt=1" in its
    place and is otherwise kept.
   */
  lemma OverviewUrl(a: string, b: string)
    requires forall j :: 0 <= j < |a| ==> !IsPrefix("tt=2", (a + "tt=2" + b)[j..])
    requires !Contains(b, "tt=2")
    ensures ReplaceAll(a + "tt=2" + b, "tt=2", "tt=1") == a + "tt=1" + b
  {
    var s := a + "tt=2" + b;
    assert s == a + ("tt=2" + b);
    ReplaceAllBefore(a, "tt=2" + b, "tt=2", "tt=1");
    assert IsPrefix("tt=2", "tt=2" + b);
    assert ("tt=2" + b)[4..] == b;
    ReplaceAllAbsent(b, "tt=2", "tt=1");
    assert a + ("tt=1" + b) == a + "tt=1" + b;
  }

  /** `zip(names, amounts)`: pairs up to the shorter list. */
  function Zip(names: seq<string>, amounts: seq<string>): (z: seq<(string, string)>)
    ensures |z| == if |names| <= |amounts| then |names| else |amounts|
    ensures forall i :: 0 <= i < |z| ==> z[i] == (names[i], amounts[i])
  {
    var n := if |names| <= |amounts| then |names| else |amounts|;
    seq(n, i requires 0 <= i < n => (names[i], amounts[i]))
  }

  /** The surplus of the longer list plays no part. */
  lemma ZipDropsSurplus(names: seq<string>, amounts: seq<string>)
    ensures var n := if |names| <= |amounts| then |names| else |amounts|;
            Zip(names, amounts) == Zip(names[..n], amounts[..n])
  {
  }

  /**
    The troops dict: a unit name is a key exactly when it is paired with an
    amount, and it maps to the amount of its last pairing.
   */
  lemma TroopsTable(names: seq<string>, amounts: seq<string>, i: nat)
    requires i < |names| && i < |amounts|
    requires forall j :: i < j < |names| && j < |amounts| ==> names[j] != names[i]
    ensures names[i] in AsMap(Zip(names, amounts))
    ensures AsMap(Zip(names, amounts))[names[i]] == amounts[i]
    ensures forall k :: k in AsMap(Zip(names, amounts)) ==> exists j :: 0 <= j < |names| && j < |amounts| && names[j] == k
  {
    var z := Zip(names, amounts);
    assert z[i].0 == names[i];
    AsMapLastWins(z, i);
  }

  // ---------------------------------------------------------------------
  // The availability rule and the form data
  // ---------------------------------------------------------------------

  const Thunder := "Theutates Thunder"

  /**
    `what_troops_available()`: `{'t4': '20'}` when at least 20 Theutates
    Thunders are at home, None when fewer, or the exception the lookup or
    `int` raises.
   */
  function TroopsAvailable(troops: Option<map<string, string>>): (r: Result<Option<map<string, FormValue>>>)
    ensures r.Ok? <==> troops.Some? && Thunder in troops.value && PyInt(troops.value[Thunder]).Some?
    ensures r.Ok? ==> (r.value.Some? <==> PyInt(troops.value[Thunder]).value >= 20)
    ensures r.Ok? && r.value.Some? ==> r.value.value == map["t4" := StrVal("20")]
  {
    match troops
    case None => Err(TypeError("'NoneType' object is not subscriptable"))
    case Some(t) =>
      if Thunder !in t then Err(KeyError(Repr(Thunder)))
      else match PyInt(t[Thunder])
        case None => Err(ValueError("invalid literal for int() with base 10: " + Repr(t[Thunder])))
        case Some(n) => Ok(if n >= 20 then Some(map["t4" := StrVal("20")]) else None)
  }

  /** `{tag['name']: tag['value'] for tag in hidden_inputs_tags}` */
  function HiddenData(hidden: seq<(string, string)>): map<string, FormValue>
  {
    AsMap(seq(|hidden|, i requires 0 <= i < |hidden| => (hidden[i].0, StrVal(hidden[i].1))))
  }

  /** The first POST: the hidden inputs, then TROOPS, the troops to send, the target and the attack type. */
  function PostData(hidden: seq<(string, string)>, available: map<string, FormValue>,
                    coords: map<string, FormValue>, attackType: map<string, FormValue>): map<string, FormValue>
  {
    (HiddenData(hidden) + Troops + available + coords + attackType)["dname" := StrVal("")]["s1" := StrVal("ok")]
  }

  /** The confirming POST: the hidden inputs of the confirmation page with `s1='ok'`. */
  function ConfirmData(hidden: seq<(string, string)>): map<string, FormValue>
  {
    HiddenData(hidden)["s1" := StrVal("ok")]
  }

  /**
    Each field of the first POST comes from the last source that sets it:
    `s1` and `dname` always, then the attack type, the coordinates, the
    troops to send, `TROOPS`, and the page's hidden inputs last.
   */
  lemma PostDataPrecedence(hidden: seq<(string, string)>, available: map<string, FormValue>,
                           coords: map<string, FormValue>, attackType: map<string, FormValue>, k: string)
    ensures var post := PostData(hidden, available, coords, attackType);
            && (k in post <==> k in HiddenData(hidden) || k in Troops || k in available || k in coords
                               || k in attackType || k == "dname" || k == "s1")
            && (k in post ==>
                  post[k] == (if k == "s1" then StrVal("ok")
                              else if k == "dname" then StrVal("")
                              else if k in attackType then attackType[k]
                              else if k in coords then coords[k]
                              else if k in available then available[k]
                              else if k in Troops then IntVal(0)
                              else HiddenData(hidden)[k]))
  {
    if k in Troops {
      TroopsExactly();
    }
  }

  /** Every key of `TROOPS` starts with "t". */
  lemma TroopKeyStartsWithT(k: string)
    requires k in Troops
    ensures |k| >= 1 && k[0] == 't'
  {
    var i :| 1 <= i < 12 && TroopKey(i) == k;
  }

  /**
    With enough Thunders, the first POST asks for 20 of them and for none of
    the other units, whatever the page's hidden inputs say, and attacks with
    type 4.
   */
  lemma PostSendsTwentyThunders(hidden: seq<(string, string)>, coords: map<string, FormValue>, k: string)
    requires k in Troops && k !in coords && k !in AttackType
    ensures var post := PostData(hidden, map["t4" := StrVal("20")], coords, AttackType);
            post[k] == if k == "t4" then StrVal("20") else IntVal(0)
    ensures PostData(hidden, map["t4" := StrVal("20")], coords, AttackType)["c"] == IntVal(4)
  {
    TroopKeyStartsWithT(k);
    assert k != "s1" && k != "dname";
    PostDataPrecedence(hidden, map["t4" := StrVal("20")], coords, AttackType, k);
    PostDataPrecedence(hidden, map["t4" := StrVal("20")], coords, AttackType, "c");
  }

  // ---------------------------------------------------------------------
  // The raids file
  // ---------------------------------------------------------------------

  /** Each line holding `key` becomes `record`; the others are copied verbatim. */
  function RewrittenLines(lines: seq<string>, key: string, record: string): (out: seq<string>)
    ensures |out| == |lines|
    ensures forall i :: 0 <= i < |lines| ==> out[i] == if Contains(lines[i], key) then record else lines[i]
  {
    seq(|lines|, i requires 0 <= i < |lines| => if Contains(lines[i], key) then record else lines[i])
  }

  /** `str(coords) + ';' + str(time) + '\n'` */
  function RaidRecord(coords: seq<(string, FormValue)>, timeText: string): string
  {
    DictRepr(coords) + ";" + timeText + "\n"
  }

  /** Rewriting twice changes nothing more: the new record still names the coordinates. */
  lemma RewriteIdempotent(lines: seq<string>, coords: seq<(string, FormValue)>, timeText: string)
    ensures var key := DictRepr(coords);
            var record := RaidRecord(coords, timeText);
            RewrittenLines(RewrittenLines(lines, key, record), key, record) == RewrittenLines(lines, key, record)
  {
    ContainsInfix([], DictRepr(coords), ";" + timeText + "\n");
    assert [] + DictRepr(coords) + (";" + timeText + "\n") == RaidRecord(coords, timeText);
  }

  // ---------------------------------------------------------------------
  // TroopsOrder
  // ---------------------------------------------------------------------

  class TroopsOrder {
    var barrackUrl: Option<string>
    var coords: seq<(string, FormValue)>
    var timeOfNextRaid: real
    var troops: Option<map<string, string>>
    var attackType: map<string, FormValue>

    /**
      `TroopsOrder(barrack_url, coords, time_of_next_raid)`. The order keeps
      its own copies of the coordinates and of `ATTACK_TYPE`; Dafny's
      sequences and maps are values, so no later change of the caller's
      data reaches them.
     */
    constructor (barrackUrl: Option<string>, coords: seq<(string, FormValue)>, timeOfNextRaid: real)
      requires DistinctKeys(coords)
      ensures this.barrackUrl == barrackUrl && this.coords == coords && this.timeOfNextRaid == timeOfNextRaid
      ensures troops == None && attackType == AttackType
    {
      this.barrackUrl := barrackUrl;
      this.coords := coords;
      this.timeOfNextRaid := timeOfNextRaid;
      troops := None;
      attackType := AttackType;
    }

    /**
      `parse_troops_amount()`: the overview page is the barracks URL with
      "tt=2" replaced by "tt=1"; `names` and `amounts` are the unit images'
      `alt` texts and the unit cells' texts found on it. Returns the URL
      fetched.
     */
    method ParseTroopsAmount(names: seq<string>, amounts: seq<string>) returns (r: Result<string>)
      modifies this
      ensures barrackUrl == old(barrackUrl) && coords == old(coords) && attackType == old(attackType)
      ensures timeOfNextRaid == old(timeOfNextRaid)
      ensures old(barrackUrl).None? ==> r.Err? && r.error.AttributeError? && troops == old(troops)
      ensures old(barrackUrl).Some? ==> r == Ok(ReplaceAll(old(barrackUrl).value, "tt=2", "tt=1"))
                                        && troops == Some(AsMap(Zip(names, amounts)))
    {
      if barrackUrl.None? {
        return Err(AttributeError("'NoneType' object has no attribute 'replace'"));
      }
      r := Ok(ReplaceAll(barrackUrl.value, "tt=2", "tt=1"));
      var pairs := Zip(names, amounts);
      var table: map<string, string> := map[];
      for i := 0 to |pairs|
        invariant table == AsMap(pairs[..i])
      {
        assert pairs[..i + 1][..i] == pairs[..i];
        table := table[pairs[i].0 := pairs[i].1];
      }
      assert pairs[..|pairs|] == pairs;
      troops := Some(table);
    }

    /**
      `send_troops()`: `hidden` and `confirmHidden` are the hidden inputs of
      the barracks page and of the confirmation page, `nextRaid` what
      `parse_time_of_next_raid` computes. Returns the two POST bodies, or the
      exception raised before the first POST.
     */
    method SendTroops(hidden: seq<(string, string)>, confirmHidden: seq<(string, string)>, nextRaid: real)
      returns (r: Result<(map<string, FormValue>, map<string, FormValue>)>)
      modifies this
      ensures barrackUrl == old(barrackUrl) && coords == old(coords) && attackType == old(attackType)
      ensures troops == old(troops)
      ensures TroopsAvailable(troops).Err? ==> r == Err(TroopsAvailable(troops).error)
      ensures TroopsAvailable(troops) == Ok(None) ==> r.Err? && r.error.TypeError?
      ensures r.Err? ==> timeOfNextRaid == old(timeOfNextRaid)
      ensures TroopsAvailable(troops).Ok? && TroopsAvailable(troops).value.Some? ==>
                && r == Ok((PostData(hidden, TroopsAvailable(troops).value.value, AsMap(coords), attackType),
                            ConfirmData(confirmHidden)))
                && timeOfNextRaid == nextRaid
    {
      var postData := HiddenData(hidden);
      postData := postData + Troops;
      var available := TroopsAvailable(troops);
      if available.Err? {
        return Err(available.error);
      }
      if available.value.None? {
        return Err(TypeError("'NoneType' object is not iterable"));
      }
      postData := postData + available.value.value;
      postData := postData + AsMap(coords);
      postData := postData + attackType;
      postData := postData["dname" := StrVal("")];
      postData := postData["s1" := StrVal("ok")];
      timeOfNextRaid := nextRaid;
      var confirmData := HiddenData(confirmHidden);
      confirmData := confirmData["s1" := StrVal("ok")];
      r := Ok((postData, confirmData));
    }

    /**
      `save_next_raid_time()`: the lines of the new raids file, given the
      lines of the old one and `timeText`, the text `str` gives for the time
      of the next raid.
     */
    method SaveNextRaidTime(lines: seq<string>, timeText: string) returns (out: seq<string>)
      ensures |out| == |lines|
      ensures out == RewrittenLines(lines, DictRepr(coords), RaidRecord(coords, timeText))
    {
      var key := DictRepr(coords);
      out := [];
      for i := 0 to |lines|
        invariant out == RewrittenLines(lines[..i], key, RaidRecord(coords, timeText))
      {
        if Contains(lines[i], key) {
          out := out + [key + ";" + timeText + "\n"];
        } else {
          out := out + [lines[i]];
        }
      }
      assert lines[..|lines|] == lines;
    }
  }
}
