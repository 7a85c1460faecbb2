/**
  The build queue of building/parse_town_buildings.py: `UpgradeBuilding`,
  its queue handling, the map from building names to their links, and the
  choice of the page to build on.

  The `Builder` superclass is not part of this model: whether one build
  attempt succeeded is an oracle answer, and the town page is given as the
  `<area>` elements found on it.
 */
module Buildings {
  import opened Common

  // ---------------------------------------------------------------------
  // parse_buildings
  // ---------------------------------------------------------------------

  /** An `<area>` of the town map: its `alt` and `href` attributes, None when absent. */
  datatype Area = Area(alt: Option<string>, href: Option<string>)

  /** The match of `^\w+`: the longest prefix of word characters. */
  function LeadingWord(s: string): (w: string)
    ensures |w| <= |s| && w == s[..|w|]
    ensures forall i :: 0 <= i < |w| ==> IsWordChar(w[i])
    ensures |w| == |s| || !IsWordChar(s[|w|])
  {
    if s != [] && IsWordChar(s[0]) then [s[0]] + LeadingWord(s[1..]) else []
  }

  /** The key of one area, or the exception the regex step raises on it. */
  function AreaKey(a: Area): (r: Result<string>)
    ensures r.Ok? <==> a.alt.Some? && LeadingWord(a.alt.value) != []
    ensures r.Ok? ==> r.value == LeadingWord(a.alt.value)
    ensures a.alt.None? ==> r.Err? && r.error.TypeError?
    ensures a.alt.Some? && r.Err? ==> r.error.AttributeError?
  {
    match a.alt
    case None => Err(TypeError("expected string or bytes-like object"))
    case Some(alt) =>
      var w := LeadingWord(alt);
      if w == [] then Err(AttributeError("'NoneType' object has no attribute 'group'")) else Ok(w)
  }

  /** What `parse_buildings()` returns for the areas of the town page, in document order. */
  function BuildingLinks(areas: seq<Area>): (r: Result<map<string, Option<string>>>)
  {
    if areas == [] then Ok(map[])
    else
      match BuildingLinks(areas[..|areas| - 1])
      case Err(e) => Err(e)
      case Ok(links) =>
        var last := areas[|areas| - 1];
        match AreaKey(last)
        case Err(e) => Err(e)
        case Ok(k) => Ok(links[k := last.href])
  }

  /** The loop of `parse_buildings`. */
  method ParseBuildings(areas: seq<Area>) returns (r: Result<map<string, Option<string>>>)
    ensures r == BuildingLinks(areas)
  {
    var links: map<string, Option<string>> := map[];
    for i := 0 to |areas|
      invariant BuildingLinks(areas[..i]) == Ok(links)
    {
      assert areas[..i + 1][..i] == areas[..i];
      var key := AreaKey(areas[i]);
      if key.Err? {
        assert BuildingLinks(areas[..i + 1]) == Err(key.error);
        BuildingLinksErrorSticks(areas, i + 1);
        assert areas[..|areas|] == areas;
        return Err(key.error);
      }
      links := links[key.value := areas[i].href];
    }
    assert areas[..|areas|] == areas;
    r := Ok(links);
  }

  /** An error in a prefix is the error of the whole page. */
  lemma {:induction false} BuildingLinksErrorSticks(areas: seq<Area>, n: nat)
    requires n <= |areas| && BuildingLinks(areas[..n]).Err?
    ensures BuildingLinks(areas) == BuildingLinks(areas[..n])
    decreases |areas| - n
  {
    if n < |areas| {
      assert areas[..n + 1][..n] == areas[..n];
      BuildingLinksErrorSticks(areas, n + 1);
    } else {
      assert areas[..n] == areas;
    }
  }

  /**
    The page fails exactly when some area has no `alt` or one that does not
    start with a word character, and then with the exception of the first
    such area.
   */
  lemma {:induction false} BuildingLinksFails(areas: seq<Area>)
    ensures BuildingLinks(areas).Err? <==> exists i :: 0 <= i < |areas| && AreaKey(areas[i]).Err?
    ensures BuildingLinks(areas).Err? ==>
              exists i :: && 0 <= i < |areas| && AreaKey(areas[i]).Err?
                          && BuildingLinks(areas).error == AreaKey(areas[i]).error
                          && forall j :: 0 <= j < i ==> AreaKey(areas[j]).Ok?
  {
    if areas != [] {
      var init := areas[..|areas| - 1];
      BuildingLinksFails(init);
      assert forall i :: 0 <= i < |init| ==> init[i] == areas[i];
    }
  }

  /**
    Every key is the leading word of some area's `alt`, and it maps to the
    `href` of the last area with that leading word.
   */
  lemma {:induction false} BuildingLinksLastWins(areas: seq<Area>, i: nat)
    requires BuildingLinks(areas).Ok? && i < |areas|
    requires forall j :: i < j < |areas| ==> AreaKey(areas[j]) != AreaKey(areas[i])
    ensures AreaKey(areas[i]).Ok?
    ensures var links := BuildingLinks(areas).value;
            AreaKey(areas[i]).value in links && links[AreaKey(areas[i]).value] == areas[i].href
  {
    BuildingLinksFails(areas);
    if i < |areas| - 1 {
      var init := areas[..|areas| - 1];
      BuildingLinksFails(init);
      assert forall j :: 0 <= j < |init| ==> init[j] == areas[j];
      BuildingLinksLastWins(init, i);
    }
  }

  lemma {:induction false} BuildingLinksKeys(areas: seq<Area>, k: string)
    requires BuildingLinks(areas).Ok? && k in BuildingLinks(areas).value
    ensures exists i :: 0 <= i < |areas| && AreaKey(areas[i]) == Ok(k)
  {
    var init := areas[..|areas| - 1];
    if k != AreaKey(areas[|areas| - 1]).value {
      BuildingLinksKeys(init, k);
      var i :| 0 <= i < |init| && AreaKey(init[i]) == Ok(k);
      assert init[i] == areas[i];
    }
  }

  /**
    A later area with the same leading word replaces the earlier link, as
    "Barracks level 3" followed by "Barracks" keeps the second link.
   */
  lemma DuplicateNameKeepsLastLink(name: string, detail: string, first: Option<string>, second: Option<string>)
    requires name != [] && forall i :: 0 <= i < |name| ==> IsWordChar(name[i])
    requires detail == [] || !IsWordChar(detail[0])
    ensures BuildingLinks([Area(Some(name + detail), first), Area(Some(name), second)]) == Ok(map[name := second])
  {
    var a := [Area(Some(name + detail), first), Area(Some(name), second)];
    LeadingWordStops(name, detail);
    LeadingWordStops(name, []);
    assert name + [] == name;
    assert AreaKey(a[0]) == Ok(name);
    assert AreaKey(a[1]) == Ok(name);
    assert a[..1][..0] == [];
    assert BuildingLinks(a[..1]) == Ok(map[name := first]);
    assert a[..|a| - 1] == a[..1];
    assert map[name := first][name := second] == map[name := second];
  }

  /** The leading word ends at the first character that is not a word character. */
  lemma {:induction false} LeadingWordStops(w: string, rest: string)
    requires forall i :: 0 <= i < |w| ==> IsWordChar(w[i])
    requires rest == [] || !IsWordChar(rest[0])
    ensures LeadingWord(w + rest) == w
  {
    if w != [] {
      LeadingWordStops(w[1..], rest);
      assert (w + rest)[1..] == w[1..] + rest;
    } else {
      assert w + rest == rest;
    }
  }

  // ---------------------------------------------------------------------
  // set_parser_location_to_build
  // ---------------------------------------------------------------------

  function IncorrectName(name: string): string
  {
    "Incorrect input of building name " + name
  }

  /**
    The URL `set_parser_location_to_build` fetches for the head of the
    queue, or the exception it raises.
   */
  function LocationToBuild(queue: seq<string>, areas: seq<Area>, serverUrl: string): (r: Result<string>)
    ensures queue == [] ==> r == Err(IndexError("list index out of range"))
    ensures queue != [] && BuildingLinks(areas).Err? ==> r == Err(BuildingLinks(areas).error)
    ensures queue != [] && BuildingLinks(areas).Ok? && queue[0] !in BuildingLinks(areas).value ==>
              r == Err(KeyError(IncorrectName(queue[0])))
    ensures r.Ok? <==> && queue != [] && BuildingLinks(areas).Ok? && queue[0] in BuildingLinks(areas).value
                       && BuildingLinks(areas).value[queue[0]].Some?
    ensures r.Ok? ==> r.value == serverUrl + BuildingLinks(areas).value[queue[0]].value
  {
    if queue == [] then Err(IndexError("list index out of range"))
    else
      match BuildingLinks(areas)
      case Err(e) => Err(e)
      case Ok(sites) =>
        if queue[0] !in sites then Err(KeyError(IncorrectName(queue[0])))
        else match sites[queue[0]]
          case None => Err(TypeError("can only concatenate str (not \"NoneType\") to str"))
          case Some(link) => Ok(serverUrl + link)
  }

  /** The head of the queue is built on the page of the last area whose name matches it. */
  lemma LocationOfHead(queue: seq<string>, areas: seq<Area>, serverUrl: string, i: nat)
    requires queue != [] && BuildingLinks(areas).Ok? && i < |areas|
    requires AreaKey(areas[i]) == Ok(queue[0]) && areas[i].href.Some?
    requires forall j :: i < j < |areas| ==> AreaKey(areas[j]) != Ok(queue[0])
    ensures LocationToBuild(queue, areas, serverUrl) == Ok(serverUrl + areas[i].href.value)
  {
    BuildingLinksLastWins(areas, i);
  }

  // ---------------------------------------------------------------------
  // The queue
  // ---------------------------------------------------------------------

  /** The number of successful attempts. */
  function Successes(outcomes: seq<bool>): (n: nat)
    ensures n <= |outcomes|
  {
    if outcomes == [] then 0 else Successes(outcomes[..|outcomes| - 1]) + (if outcomes[|outcomes| - 1] then 1 else 0)
  }

  /**
    The recursion of `__call__`: while the queue is not empty, one build
    attempt; on success the head is removed. `outcomes` are the answers of
    the successive attempts. Returns the queue left and the number of
    attempts made.
   */
  function Drain(queue: seq<string>, outcomes: seq<bool>): (seq<string>, nat)
  {
    if queue == [] || outcomes == [] then (queue, 0)
    else
      var (rest, used) := Drain(if outcomes[0] then queue[1..] else queue, outcomes[1..]);
      (rest, used + 1)
  }

  /**
    After `used` attempts the queue has lost exactly one head per success,
    and the attempts stop early only when the queue is empty.
   */
  lemma {:induction false} DrainRemovesHeads(queue: seq<string>, outcomes: seq<bool>)
    ensures var (rest, used) := Drain(queue, outcomes);
            && used <= |outcomes|
            && Successes(outcomes[..used]) <= |queue|
            && rest == queue[Successes(outcomes[..used])..]
            && (used < |outcomes| ==> rest == [])
  {
    if queue != [] && outcomes != [] {
      var q := if outcomes[0] then queue[1..] else queue;
      DrainRemovesHeads(q, outcomes[1..]);
      var (rest, used) := Drain(q, outcomes[1..]);
      assert Drain(queue, outcomes) == (rest, used + 1);
      var k := Successes(outcomes[1..][..used]);
      SuccessesCons(outcomes[0], outcomes[1..][..used]);
      assert [outcomes[0]] + outcomes[1..][..used] == outcomes[..used + 1];
      if outcomes[0] {
        assert Successes(outcomes[..used + 1]) == k + 1;
        assert queue[1..][k..] == queue[k + 1..];
      } else {
        assert Successes(outcomes[..used + 1]) == k;
      }
    } else {
      assert outcomes[..0] == [];
    }
  }

  lemma {:induction false} SuccessesCons(b: bool, s: seq<bool>)
    ensures Successes([b] + s) == (if b then 1 else 0) + Successes(s)
    decreases |s|
  {
    if s != [] {
      SuccessesCons(b, s[..|s| - 1]);
      assert ([b] + s)[..|s|] == [b] + s[..|s| - 1];
    } else {
      assert [b] + s == [b];
      assert [b][..0] == [];
    }
  }

  /** As many successes as queued buildings empty the queue. */
  lemma {:induction false} DrainEmpties(queue: seq<string>, outcomes: seq<bool>)
    requires Successes(outcomes) >= |queue|
    ensures Drain(queue, outcomes).0 == []
  {
    DrainRemovesHeads(queue, outcomes);
    var (rest, used) := Drain(queue, outcomes);
    if used == |outcomes| {
      assert outcomes[..used] == outcomes;
    }
  }

  /** Failed attempts leave the queue as it was. */
  lemma {:induction false} DrainFailuresKeep(queue: seq<string>, outcomes: seq<bool>)
    requires forall i :: 0 <= i < |outcomes| ==> !outcomes[i]
    ensures Drain(queue, outcomes).0 == queue
  {
    if queue != [] && outcomes != [] {
      DrainFailuresKeep(queue, outcomes[1..]);
    }
  }

  // ---------------------------------------------------------------------
  // UpgradeBuilding
  // ---------------------------------------------------------------------

  class UpgradeBuilding {
    var townPageUrl: string
    var queue: seq<string>
    /** The URL of the page `parser_location_to_build` holds, None before one is set. */
    var locationToBuild: Option<string>

    /**
      `UpgradeBuilding(town_page_url, queue)`: the object keeps its own copy
      of the queue; Dafny's sequences are values, so deleting from it never
      changes the caller's list.
     */
    constructor (townPageUrl: string, queue: seq<string>)
      ensures this.townPageUrl == townPageUrl && this.queue == queue && locationToBuild == None
    {
      this.townPageUrl := townPageUrl;
      this.queue := queue;
      locationToBuild := None;
    }

    /** `__call__()`: build until the queue is empty or the attempts run out. */
    method Run(outcomes: seq<bool>) returns (used: nat)
      modifies this
      ensures (queue, used) == Drain(old(queue), outcomes)
      ensures townPageUrl == old(townPageUrl) && locationToBuild == old(locationToBuild)
    {
      used := 0;
      ghost var q0 := queue;
      while queue != [] && used < |outcomes|
        invariant used <= |outcomes|
        invariant Drain(q0, outcomes) == (Drain(queue, outcomes[used..]).0, used + Drain(queue, outcomes[used..]).1)
        invariant townPageUrl == old(townPageUrl) && locationToBuild == old(locationToBuild)
        decreases |outcomes| - used
      {
        assert outcomes[used..][1..] == outcomes[used + 1..];
        if outcomes[used] {
          queue := queue[1..];
        }
        used := used + 1;
      }
    }

    /**
      `set_parser_location_to_build()` for the areas of the town page: on
      success the location parser is set to the page of the head of the
      queue; the queue itself is never changed.
     */
    method SetParserLocationToBuild(areas: seq<Area>, serverUrl: string) returns (r: Result<string>)
      modifies this
      ensures queue == old(queue) && townPageUrl == old(townPageUrl)
      ensures r == LocationToBuild(queue, areas, serverUrl)
      ensures r.Ok? ==> locationToBuild == Some(r.value)
      ensures r.Err? ==> locationToBuild == old(locationToBuild)
    {
      if queue == [] {
        return Err(IndexError("list index out of range"));
      }
      var buildingToBuild := queue[0];
      var sites := ParseBuildings(areas);
      if sites.Err? {
        return Err(sites.error);
      }
      if buildingToBuild !in sites.value {
        return Err(KeyError(IncorrectName(buildingToBuild)));
      }
      var link := sites.value[buildingToBuild];
      if link.None? {
        return Err(TypeError("can only concatenate str (not \"NoneType\") to str"));
      }
      r := Ok(serverUrl + link.value);
      locationToBuild := Some(r.value);
    }
  }
}
