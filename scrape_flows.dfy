/** The fetch-and-fallback flows of the scraper (`src/scrape_za.py`):
    `scrape_pokemon_moves_cloud`, `scrape_move_detail_cloud` and
    `scrape_move_detail_by_url_cloud`. The network and the HTML parser are
    parameters: `fetch` is `cloud_fetch_html` of a URL, `browser` is
    `fetch_html_with_playwright_cloud` (None when it fails), and the
    parsers stand for `parse_*_from_*` applied to the page's soup. */
module ScrapeFlows {
  import opened Wrappers
  import opened PyValues
  import opened ScrapeRecord

  // ---------------------------------------------------------------------
  // URLs

  /** Python's `t in s` for strings. */
  predicate HasSubstring(s: string, t: string) {
    exists i :: 0 <= i <= |s| && t <= s[i..]
  }

  /** The `view=pc` variant of a page: the parameter joins an existing
      query with `&`, or starts the query with `?`. */
  function PcVariant(url: string): (pc: string)
    ensures |pc| == |url| + 8 && pc[..|url|] == url
    ensures pc[|url| + 1..] == "view=pc"
    ensures pc[|url|] == (if '?' in url then '&' else '?')
    ensures '?' in pc
    ensures '?' in url ==> forall i :: |url| <= i < |pc| ==> pc[i] != '?'
  {
    var pc := url + ((if '?' in url then "&" else "?") + "view=pc");
    assert pc[|url|] in pc;
    pc
  }

  /** The PC variant always carries `view=pc`. */
  lemma PcVariantHasView(url: string)
    ensures HasSubstring(PcVariant(url), "view=pc")
  {
    var pc := PcVariant(url);
    assert "view=pc" <= pc[|url| + 1..];
  }

  const Digits := "0123456789"

  /** The decimal text of a natural number, most significant digit first. */
  function NatText(n: nat): (s: string)
    ensures |s| > 0 && forall i :: 0 <= i < |s| ==> s[i] in Digits
    decreases n
  {
    if n < 10 then [Digits[n]]
    else
      var s := NatText(n / 10) + [Digits[n % 10]];
      assert s[|s| - 1] == Digits[n % 10];
      s
  }

  /** `str(n)` of a Python int. */
  function IntText(n: int): (s: string)
    ensures |s| > 0 && (n < 0 <==> s[0] == '-')
  {
    if n < 0 then "-" + NatText(-n) else NatText(n)
  }

  /** The number a string of decimal digits stands for. */
  function DigitsValue(s: string): nat
    requires forall i :: 0 <= i < |s| ==> s[i] in Digits
    decreases |s|
  {
    if s == [] then 0
    else
      assert forall i :: 0 <= i < |s| - 1 ==> s[..|s| - 1][i] == s[i];
      var d := s[|s| - 1];
      DigitsValue(s[..|s| - 1]) * 10 + (if d == '0' then 0 else if d == '1' then 1 else if d == '2' then 2
        else if d == '3' then 3 else if d == '4' then 4 else if d == '5' then 5 else if d == '6' then 6
        else if d == '7' then 7 else if d == '8' then 8 else 9)
  }

  /** Reading the decimal text of a number back gives the number. */
  lemma {:induction false} NatTextRoundTrip(n: nat)
    ensures DigitsValue(NatText(n)) == n
    decreases n
  {
    if n >= 10 {
      NatTextRoundTrip(n / 10);
      var s := NatText(n);
      assert s[..|s| - 1] == NatText(n / 10);
    }
  }

  /** `f"{MOVE_SEARCH_BASE}{move_key}"`. */
  function KeyUrl(moveSearchBase: string, moveKey: int): (url: string)
    ensures |url| > |moveSearchBase| && url[..|moveSearchBase|] == moveSearchBase
    ensures moveKey >= 0 ==> var t := url[|moveSearchBase|..];
      (forall i :: 0 <= i < |t| ==> t[i] in Digits) && DigitsValue(t) == moveKey
  {
    var url := moveSearchBase + IntText(moveKey);
    assert url[|moveSearchBase|..] == IntText(moveKey);
    assert moveKey >= 0 ==> DigitsValue(NatText(moveKey)) == moveKey by {
      if moveKey >= 0 { NatTextRoundTrip(moveKey); }
    }
    url
  }

  // ---------------------------------------------------------------------
  // critical_missing

  /** `v in (None, "", "-")`. */
  predicate Blank(v: Value) {
    v == VNone || v == VStr("") || v == VStr("-")
  }

  /** The fields a move page must fill for its data to be kept. */
  function CriticalKeys(): seq<Key> {
    [Type, Category, Power, ActivationTime, Range, DirectAttack, FingerWag, Protect, Substitute]
  }

  /** `critical_missing`: the parsed record is empty or one of the critical
      fields is None, empty or `-`. */
  function CriticalMissing(data: Record): (missing: bool)
    ensures missing <==> data == map[] || exists i :: 0 <= i < |CriticalKeys()| && Blank(Field(data, CriticalKeys()[i]))
  {
    var ks := CriticalKeys();
    assert ks[0] == Type && ks[1] == Category && ks[2] == Power && ks[3] == ActivationTime && ks[4] == Range;
    assert ks[5] == DirectAttack && ks[6] == FingerWag && ks[7] == Protect && ks[8] == Substitute;
    data == map[] || Blank(Field(data, Type)) || Blank(Field(data, Category)) || Blank(Field(data, Power)) ||
    Blank(Field(data, ActivationTime)) || Blank(Field(data, Range)) || Blank(Field(data, DirectAttack)) ||
    Blank(Field(data, FingerWag)) || Blank(Field(data, Protect)) || Blank(Field(data, Substitute))
  }

  /** Only the critical fields matter: changing any other field of a
      non-empty record does not change whether data is missing. */
  lemma CriticalMissingIgnoresOtherKeys(data: Record, k: Key, v: Value)
    requires data != map[] && k !in CriticalKeys()
    ensures CriticalMissing(data[k := v]) == CriticalMissing(data)
  {
    var d := data[k := v];
    assert d != map[] by { assert k in d; }
    forall i | 0 <= i < |CriticalKeys()| ensures Field(d, CriticalKeys()[i]) == Field(data, CriticalKeys()[i]) {
      assert CriticalKeys()[i] in CriticalKeys();
    }
  }

  // ---------------------------------------------------------------------
  // The flows

  /** `if not html`: no page, or an empty one. */
  predicate Usable(html: Option<string>) {
    html.Some? && html.value != ""
  }

  /** The record returned: the parsed record with `page_url` and
      `move_key` set. */
  function Stamp(core: Record, url: string, moveKey: Value): (data: Record)
    ensures Field(data, PageUrl) == VStr(url) && Field(data, MoveKey) == moveKey
    ensures forall k :: k != PageUrl && k != MoveKey ==> Field(data, k) == Field(core, k)
  {
    core[PageUrl := VStr(url)][MoveKey := moveKey]
  }

  /** `core` is what the parser made of the page at `url`, fetched directly
      or through the browser. */
  predicate FromPage(fetch: string -> string, parse: string -> Record, browser: string -> Option<string>,
                     core: Record, url: string) {
    core == parse(fetch(url)) || (Usable(browser(url)) && core == parse(browser(url).value))
  }

  /** `scrape_pokemon_moves_cloud`: the page as given, and only when it
      yields no move, its PC variant. */
  method ScrapePokemonMoves<M>(fetch: string -> string, parse: string -> seq<M>, url: string) returns (moves: seq<M>)
    ensures parse(fetch(url)) != [] ==> moves == parse(fetch(url))
    ensures parse(fetch(url)) == [] ==> moves == parse(fetch(PcVariant(url)))
  {
    var html := fetch(url);
    moves := parse(html);
    if moves != [] {
      return;
    }
    var urlPc := PcVariant(url);
    html := fetch(urlPc);
    moves := parse(html);
  }

  /** `scrape_move_detail_cloud`: the move's page; when data is missing,
      the page with `&view=pc`; when still missing, the browser on the
      current URL and then on its `&view=pc` form. The result records the
      move key and the URL used, and whenever its data is complete that
      URL is the page the data was parsed from. */
  method ScrapeMoveDetail(fetch: string -> string, parse: string -> Record, browser: string -> Option<string>,
                          moveSearchBase: string, moveKey: int) returns (data: Record)
    ensures Field(data, MoveKey) == VInt(moveKey)
    ensures var url := KeyUrl(moveSearchBase, moveKey);
      Field(data, PageUrl) == VStr(url) || Field(data, PageUrl) == VStr(url + "&view=pc")
    ensures var url := KeyUrl(moveSearchBase, moveKey);
      !CriticalMissing(parse(fetch(url))) ==> data == Stamp(parse(fetch(url)), url, VInt(moveKey))
    ensures exists core: Record, u: string ::
      data == Stamp(core, u, VInt(moveKey)) && (!CriticalMissing(core) ==> FromPage(fetch, parse, browser, core, u))
  {
    var url := KeyUrl(moveSearchBase, moveKey);
    var html := fetch(url);
    var core := parse(html);
    var criticalMissing := CriticalMissing(core);
    if criticalMissing {
      var urlPc := url + "&view=pc";
      html := fetch(urlPc);
      core := parse(html);
      criticalMissing := CriticalMissing(core);
      if core != map[] && !criticalMissing {
        url := urlPc;
      }
    }
    if core == map[] || criticalMissing {
      var page := browser(url);
      if !Usable(page) {
        var urlPc := url + "&view=pc";
        page := browser(urlPc);
        if Usable(page) {
          url := urlPc;
        }
      }
      if Usable(page) {
        core := parse(page.value);
      }
    }
    data := Stamp(core, url, VInt(moveKey));
    assert data == Stamp(core, url, VInt(moveKey)) && (!CriticalMissing(core) ==> FromPage(fetch, parse, browser, core, url));
  }

  /** `scrape_move_detail_by_url_cloud`: as the scrape by key, but the PC
      variant is tried only when the URL does not already ask for it, and
      the result's `move_key` is None. */
  method ScrapeMoveDetailByUrl(fetch: string -> string, parse: string -> Record, browser: string -> Option<string>,
                               url0: string) returns (data: Record)
    ensures Field(data, MoveKey) == VNone
    ensures Field(data, PageUrl) == VStr(url0) ||
      (!HasSubstring(url0, "view=pc") && Field(data, PageUrl) == VStr(PcVariant(url0)))
    ensures HasSubstring(url0, "view=pc") ==> Field(data, PageUrl) == VStr(url0)
    ensures !CriticalMissing(parse(fetch(url0))) ==> data == Stamp(parse(fetch(url0)), url0, VNone)
    ensures exists core: Record, u: string ::
      data == Stamp(core, u, VNone) && (!CriticalMissing(core) ==> FromPage(fetch, parse, browser, core, u))
  {
    var url := url0;
    var html := fetch(url);
    var core := parse(html);
    var criticalMissing := CriticalMissing(core);
    if criticalMissing {
      if !HasSubstring(url, "view=pc") {
        var urlPc := PcVariant(url);
        html := fetch(urlPc);
        core := parse(html);
        criticalMissing := CriticalMissing(core);
        if core != map[] && !criticalMissing {
          url := urlPc;
        }
      }
    }
    if core == map[] || criticalMissing {
      var page := browser(url);
      if !Usable(page) && !HasSubstring(url, "view=pc") {
        var urlPc := PcVariant(url);
        page := browser(urlPc);
        if Usable(page) {
          url := urlPc;
        }
      }
      if Usable(page) {
        core := parse(page.value);
      }
    }
    data := Stamp(core, url, VNone);
    assert data == Stamp(core, url, VNone) && (!CriticalMissing(core) ==> FromPage(fetch, parse, browser, core, url));
  }
}
