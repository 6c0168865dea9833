/**
 * The lunch-menu store: one preferences slot, under the key "lunch_menus",
 * that holds the whole week's menu, keyed by lower-case day name.
 *
 * The slot holds a JSON string in the original; here a stored value is the
 * menu map it encodes, i.e. the codec is taken to be the identity.
 */
module MenuRepo {
  import opened Wrappers
  import opened Days

  /** A price in euro cents: the source's Double 15.9 is 1590 here. */
  type Price = int

  /** One dish. A dish built without a description has none (the Kotlin default `null`). */
  datatype MenuItem = MenuItem(name: string, description: Option<string> := None, price: Price)

  /** Day key to the ordered list of that day's dishes. */
  type WeeklyMenu = map<string, seq<MenuItem>>

  /** The preferences file: each key to the value stored under it. */
  type Preferences = map<string, WeeklyMenu>

  /** The one key this store reads and writes. */
  const MenusKey: string := "lunch_menus"

  /** What decoding the default text "{}" gives: the empty week. */
  const EmptyWeek: WeeklyMenu := map[]

  /** The slot itself: absent until the first write. */
  function Slot(p: Preferences): (r: Option<WeeklyMenu>)
    ensures r.Some? <==> MenusKey in p
    ensures r.Some? ==> r.value == p[MenusKey]
  {
    if MenusKey in p then Some(p[MenusKey]) else None
  }

  /** The value `getLunchMenus` emits for a preferences snapshot. */
  function Read(p: Preferences): (m: WeeklyMenu)
    ensures MenusKey !in p ==> m == map[]
    ensures MenusKey in p ==> m == p[MenusKey]
  {
    Slot(p).GetOr(EmptyWeek)
  }

  /**
   * The snapshot after `updateLunchMenus(menus)`: the slot holds exactly
   * `menus`, and every other key keeps its value.
   */
  function Write(p: Preferences, menus: WeeklyMenu): (p': Preferences)
    ensures Read(p') == menus
    ensures p'.Keys == p.Keys + {MenusKey}
    ensures forall k :: k in p && k != MenusKey ==> k in p' && p'[k] == p[k]
  {
    p[MenusKey := menus]
  }

  /** Writing the same menu twice leaves the store as writing it once. */
  lemma WriteIdempotent(p: Preferences, menus: WeeklyMenu)
    ensures Write(Write(p, menus), menus) == Write(p, menus)
  {
  }

  /**
   * A write replaces the whole week: nothing of an earlier write survives,
   * not even days the later map does not mention.
   */
  lemma WriteLastWins(p: Preferences, first: WeeklyMenu, second: WeeklyMenu)
    ensures Write(Write(p, first), second) == Write(p, second)
    ensures forall k :: k in Read(Write(Write(p, first), second)) <==> k in second
  {
  }

  /** A sample day: four dishes, each priced from 13.50 to 16.50. */
  predicate SampleDay(items: seq<MenuItem>)
  {
    |items| == 4 && forall i :: 0 <= i < |items| ==> 1350 <= items[i].price <= 1650
  }

  /** Every dish of the list has a non-empty name. */
  predicate AllNamed(items: seq<MenuItem>)
  {
    forall i :: 0 <= i < |items| ==> items[i].name != ""
  }

  /** The days the sample week covers: Monday to Friday, nothing at the weekend. */
  const SampleKeys: set<string> := {"monday", "tuesday", "wednesday", "thursday", "friday"}

  /**
   * The shape of the sample week: an entry for each of Monday to Friday and
   * no other, each a sample day of named dishes.
   */
  predicate SeedShape(menus: WeeklyMenu)
  {
    && menus.Keys == SampleKeys
    && forall k :: k in menus ==> SampleDay(menus[k]) && AllNamed(menus[k])
  }

  /** The sample week has an entry for a day exactly when it is Monday to Friday. */
  lemma SampleKeysAreWeekdays(d: Day)
    ensures LookupKey(d) in SampleKeys <==> IsWeekday(d)
  {
  }

  /** Monday's sample dishes; only the second comes without a description. */
  method SampleMonday() returns (dishes: seq<MenuItem>)
    ensures SampleDay(dishes) && AllNamed(dishes)
    ensures forall i :: 0 <= i < |dishes| ==> (dishes[i].description.None? <==> i == 1)
  {
    dishes := [
      MenuItem("Savulohiuuniperuna", Some("ja feta-omenasalaattia"), 1350),
      MenuItem("Kormabroileri thalilautanen", price := 1450),
      MenuItem("Falafelsalaatti", Some("harissajugurttia ja omenabulgursalaattia"), 1450),
      MenuItem("Härän fileegrillipihvi", Some("suppilovahverokastiketta, paistettua yrttiperunaa ja hunajajuureksia"), 1650)
    ];
  }

  /** Tuesday's sample dishes, every one with a description. */
  method SampleTuesday() returns (dishes: seq<MenuItem>)
    ensures SampleDay(dishes) && AllNamed(dishes)
    ensures forall i :: 0 <= i < |dishes| ==> dishes[i].description.Some?
  {
    dishes := [
      MenuItem("Chicken sandwich", Some("punakaalia, avokadoa, cheddaria ja loaded frittiperunat"), 1350),
      MenuItem("Karitsaa yrttikermassa ja tagliatellea", Some("paahdettua paprikaa ja parmesaania"), 1450),
      MenuItem("Paahdettu vuohenjuustosalaatti", Some("ja cashewpähkinää, kaneli-omenahilloketta"), 1450),
      MenuItem("Paistettua kampelaa", Some("tillimuusia, katkarapuremouladea ja sitrussalaattia"), 1590)
    ];
  }

  /** Wednesday's sample dishes; only the second comes without a description. */
  method SampleWednesday() returns (dishes: seq<MenuItem>)
    ensures SampleDay(dishes) && AllNamed(dishes)
    ensures forall i :: 0 <= i < |dishes| ==> (dishes[i].description.None? <==> i == 1)
  {
    dishes := [
      MenuItem("Kermainen lohikeitto", Some("ja saaristolaisleipää"), 1350),
      MenuItem("Broileri-appelsiini-pinaattitortellonit", price := 1450),
      MenuItem("Tattirisotto", Some("timjamicreme ja punajuurisipsejä"), 1450),
      MenuItem("Härän fileelehtipihvi", Some("karpalo-chilivoi, kermaperunaa ja manteliparsakaalia"), 1650)
    ];
  }

  /** Thursday's sample dishes; only the second comes without a description. */
  method SampleThursday() returns (dishes: seq<MenuItem>)
    ensures SampleDay(dishes) && AllNamed(dishes)
    ensures forall i :: 0 <= i < |dishes| ==> (dishes[i].description.None? <==> i == 1)
  {
    dishes := [
      MenuItem("Pestobroileri Ceasarsalaatti", Some("fetaa, marinoitua tomaattia ja krutonkeja"), 1350),
      MenuItem("Tomaattinen tiikerirapu-mozzarellaspagetti", price := 1450),
      MenuItem("Kevätkääryleet", Some("thaisalaatti, nuudelia ja papaijaa"), 1450),
      MenuItem("Karitsan fileevarras", Some("cheddar-jalapenokastike, friteerattua lohkoperunaa ja salaattia"), 1650)
    ];
  }

  /** Friday's sample dishes; the second and third come without a description. */
  method SampleFriday() returns (dishes: seq<MenuItem>)
    ensures SampleDay(dishes) && AllNamed(dishes)
    ensures forall i :: 0 <= i < |dishes| ==> (dishes[i].description.None? <==> i == 1 || i == 2)
  {
    dishes := [
      MenuItem("Katkarapu Skagen", Some("saaristolaisleipää ja fenkolisalaattia"), 1350),
      MenuItem("Spaghetti Carbonara", price := 1450),
      MenuItem("Ruskajuusto red curry thalilautanen", price := 1450),
      MenuItem("Härkä-pekoni-chipotlehampurilainen", Some("dippiperunaa ja cole slaw"), 1590)
    ];
  }

  /**
   * `sampleLunchMenus`: the fixed Monday-to-Friday week. Every day opens
   * with a described dish, and the second dish is undescribed on every day
   * but Tuesday.
   */
  method SampleLunchMenus() returns (menus: WeeklyMenu)
    ensures SeedShape(menus)
    ensures forall k :: k in menus ==> menus[k][0].description.Some?
    ensures forall k :: k in menus ==> (menus[k][1].description.None? <==> k != "tuesday")
  {
    var monday := SampleMonday();
    var tuesday := SampleTuesday();
    var wednesday := SampleWednesday();
    var thursday := SampleThursday();
    var friday := SampleFriday();
    menus := map[
      "monday" := monday,
      "tuesday" := tuesday,
      "wednesday" := wednesday,
      "thursday" := thursday,
      "friday" := friday
    ];
  }

  /** A dish built without a description carries none. */
  lemma DefaultDescriptionIsNone(name: string, price: Price)
    ensures MenuItem(name, price := price).description == None
  {
  }

  /**
   * `LunchMenuRepo`: the preferences store behind the menus. `writes` records,
   * in order, every map handed to `UpdateLunchMenus`.
   */
  class LunchMenuRepo {
    var prefs: Preferences
    ghost var writes: seq<WeeklyMenu>

    /** The companion object's `sampleLunchMenus`, built once. */
    const sampleLunchMenus: WeeklyMenu

    /** A repository over the preferences already persisted on the device. */
    constructor (persisted: Preferences)
      ensures prefs == persisted && writes == []
      ensures SeedShape(sampleLunchMenus)
    {
      prefs := persisted;
      writes := [];
      var sample := SampleLunchMenus();
      sampleLunchMenus := sample;
    }

    /** The latest value of `getLunchMenus()`. */
    function GetLunchMenus(): WeeklyMenu
      reads this
    {
      Read(prefs)
    }

    /** `updateLunchMenus`: store `menus` as the whole week, replacing what was there. */
    method UpdateLunchMenus(menus: WeeklyMenu)
      modifies this
      ensures prefs == Write(old(prefs), menus)
      ensures GetLunchMenus() == menus
      ensures writes == old(writes) + [menus]
    {
      prefs := prefs[MenusKey := menus];
      writes := writes + [menus];
    }
  }
}
