/** The random-track request of RequestRules.cs: from a rule set and a
    stream of random draws, pick an exchange site and build the
    `https://<host>/trackrandom?...` address.

    The properties of the rule class are an explicit ordered list
    (`FieldAt`), in the order they are declared; a value is tagged with the
    encoding its .NET type gets. Enumeration values are ordinals: the
    ordinals of the named environments and of the race primary type are
    parameters (`Ordinals`), since the enumerations are not part of this
    model. The random generator is the sequence of raw draws `Next` reads. */
module RequestRules {
  import opened Wrappers
  import opened Strings

  // ---------------------------------------------------------------------
  // Sites, enumerations and the random source

  /** The exchange sites, in the order of the enumeration's values. `Any`
      carries no flag: a mask that names no concrete site means "any". */
  datatype ESite = Any | TMNF | TMUF | Nations | Sunrise | Original

  const SiteValues: seq<ESite> := [Any, TMNF, TMUF, Nations, Sunrise, Original]

  /** The flag value of a site in the bitmask (Any is the empty mask). */
  function SiteFlag(site: ESite): nat {
    match site
    case Any => 0
    case TMNF => 1
    case TMUF => 2
    case Nations => 4
    case Sunrise => 8
    case Original => 16
  }

  /** The integer a site mask holds. */
  function SiteMaskValue(mask: set<ESite>): nat {
    (if TMNF in mask then SiteFlag(TMNF) else 0) + (if TMUF in mask then SiteFlag(TMUF) else 0)
    + (if Nations in mask then SiteFlag(Nations) else 0) + (if Sunrise in mask then SiteFlag(Sunrise) else 0)
    + (if Original in mask then SiteFlag(Original) else 0)
  }

  /** `ESite.ToString()`. */
  function SiteName(site: ESite): string {
    match site
    case Any => "Any"
    case TMNF => "TMNF"
    case TMUF => "TMUF"
    case Nations => "Nations"
    case Sunrise => "Sunrise"
    case Original => "Original"
  }

  /** The ordinals of the environment enumeration (0 to environmentCount - 1)
      that the rules name, and of the race primary type. */
  datatype EnumOrdinals = EnumOrdinals(
    environmentCount: nat,
    snow: nat, desert: nat, rally: nat, island: nat, coast: nat, bay: nat, stadium: nat,
    race: nat)

  type Ordinals = o: EnumOrdinals
    | o.snow < o.environmentCount && o.desert < o.environmentCount && o.rally < o.environmentCount
      && o.island < o.environmentCount && o.coast < o.environmentCount && o.bay < o.environmentCount
      && o.stadium < o.environmentCount
    witness EnumOrdinals(7, 0, 1, 2, 3, 4, 5, 6, 0)

  /** The fixed environment list drawn from on Sunrise. */
  function SunriseEnvValues(e: Ordinals): seq<nat> {
    [e.island, e.bay, e.coast]
  }

  /** The fixed environment list drawn from on Original. */
  function OriginalEnvValues(e: Ordinals): seq<nat> {
    [e.desert, e.snow, e.rally]
  }

  /** The generator after one call. */
  function Rest(draws: seq<nat>): seq<nat> {
    if draws == [] then [] else draws[1..]
  }

  /** `random.Next(n)`: the next raw draw reduced into [0, n); 0 when n is 0
      (as `System.Random` answers) or when the draws have run out. */
  function Next(draws: seq<nat>, n: nat): (r: (nat, seq<nat>))
    ensures n > 0 ==> r.0 < n
    ensures n == 0 ==> r.0 == 0
    ensures r.1 == Rest(draws)
  {
    (if n == 0 || draws == [] then 0 else draws[0] % n, Rest(draws))
  }

  datatype UrlError =
    | IndexOutOfRange   // an element taken from an empty array of sites
    | Unreachable       // GetSiteUrl asked for the host of Any

  // ---------------------------------------------------------------------
  // The rule set

  /** `DateOnly`. */
  datatype DateParts = DateParts(year: nat, month: nat, day: nat)

  type DateOnly = d: DateParts | 1 <= d.year <= 9999 && 1 <= d.month <= 12 && 1 <= d.day <= 31
    witness DateParts(1, 1, 1)

  /** A `RequestRules` object. Enumeration values are ordinals; a `HashSet`
      is the sequence its enumeration yields. A `HashSet` holds no element
      twice; the sequences here may, and no property proved about them
      depends on it (a repeated element only weights the redraw). `survivalBonusTime` is a
      `TimeSpan`, carried as the text its `ToString()` gives; the two author
      times are `TimeInt32` values in milliseconds. */
  datatype Rules = Rules(
    site: set<ESite>,
    equalEnvironmentDistribution: bool,
    equalVehicleDistribution: bool,
    author: Option<string>,
    environment: Option<seq<nat>>,
    name: Option<string>,
    vehicle: Option<seq<nat>>,
    primaryType: Option<nat>,
    tag: Option<nat>,
    mood: Option<seq<nat>>,
    difficulty: Option<seq<nat>>,
    routes: Option<seq<nat>>,
    lbType: Option<nat>,
    inBeta: Option<bool>,
    inPlayLater: Option<bool>,
    inFeatured: Option<bool>,
    inSupporter: Option<bool>,
    inFavorite: Option<bool>,
    inDownloads: Option<bool>,
    inReplays: Option<bool>,
    inEnvmix: Option<bool>,
    inHasRecord: Option<bool>,
    inLatestAuthor: Option<bool>,
    inLatestAwardedAuthor: Option<bool>,
    inScreenshot: Option<bool>,
    uploadedBefore: Option<DateOnly>,
    uploadedAfter: Option<DateOnly>,
    survivalMode: bool,
    survivalBonusTime: Option<string>,
    authorTimeMin: Option<int>,
    authorTimeMax: Option<int>,
    freeSkipLimit: Option<int>,
    goldSkipLimit: Option<int>)

  /** The properties of the rule class. */
  datatype Field =
    | Site | EqualEnvironmentDistribution | EqualVehicleDistribution
    | Author | Environment | Name | Vehicle | PrimaryType | Tag | Mood | Difficulty | Routes | LbType
    | InBeta | InPlayLater | InFeatured | InSupporter | InFavorite | InDownloads | InReplays | InEnvmix
    | InHasRecord | InLatestAuthor | InLatestAwardedAuthor | InScreenshot
    | UploadedBefore | UploadedAfter | SurvivalMode | SurvivalBonusTime
    | AuthorTimeMin | AuthorTimeMax | FreeSkipLimit | GoldSkipLimit

  const FieldCount: nat := 33

  /** The properties in declaration order: the order the request walks them. */
  function FieldAt(i: nat): Field
    requires i < FieldCount
  {
    if i == 0 then Site else if i == 1 then EqualEnvironmentDistribution
    else if i == 2 then EqualVehicleDistribution else if i == 3 then Author
    else if i == 4 then Environment else if i == 5 then Name
    else if i == 6 then Vehicle else if i == 7 then PrimaryType
    else if i == 8 then Tag else if i == 9 then Mood
    else if i == 10 then Difficulty else if i == 11 then Routes
    else if i == 12 then LbType else if i == 13 then InBeta
    else if i == 14 then InPlayLater else if i == 15 then InFeatured
    else if i == 16 then InSupporter else if i == 17 then InFavorite
    else if i == 18 then InDownloads else if i == 19 then InReplays
    else if i == 20 then InEnvmix else if i == 21 then InHasRecord
    else if i == 22 then InLatestAuthor else if i == 23 then InLatestAwardedAuthor
    else if i == 24 then InScreenshot else if i == 25 then UploadedBefore
    else if i == 26 then UploadedAfter else if i == 27 then SurvivalMode
    else if i == 28 then SurvivalBonusTime else if i == 29 then AuthorTimeMin
    else if i == 30 then AuthorTimeMax else if i == 31 then FreeSkipLimit
    else GoldSkipLimit
  }

  /** The position of a property in the list. */
  function Rank(f: Field): (k: nat)
    ensures k < FieldCount && FieldAt(k) == f
  {
    match f
    case Site => 0 case EqualEnvironmentDistribution => 1 case EqualVehicleDistribution => 2
    case Author => 3 case Environment => 4 case Name => 5 case Vehicle => 6 case PrimaryType => 7
    case Tag => 8 case Mood => 9 case Difficulty => 10 case Routes => 11 case LbType => 12
    case InBeta => 13 case InPlayLater => 14 case InFeatured => 15 case InSupporter => 16
    case InFavorite => 17 case InDownloads => 18 case InReplays => 19 case InEnvmix => 20
    case InHasRecord => 21 case InLatestAuthor => 22 case InLatestAwardedAuthor => 23
    case InScreenshot => 24 case UploadedBefore => 25 case UploadedAfter => 26
    case SurvivalMode => 27 case SurvivalBonusTime => 28 case AuthorTimeMin => 29
    case AuthorTimeMax => 30 case FreeSkipLimit => 31 case GoldSkipLimit => 32
  }

  /** Each property occurs once in the list. */
  lemma RankOfFieldAt(i: nat)
    requires i < FieldCount
    ensures Rank(FieldAt(i)) == i
  {
  }

  /** `PropertyInfo.Name`. */
  function FieldName(f: Field): string {
    match f
    case Site => "Site"
    case EqualEnvironmentDistribution => "EqualEnvironmentDistribution"
    case EqualVehicleDistribution => "EqualVehicleDistribution"
    case Author => "Author"
    case Environment => "Environment"
    case Name => "Name"
    case Vehicle => "Vehicle"
    case PrimaryType => "PrimaryType"
    case Tag => "Tag"
    case Mood => "Mood"
    case Difficulty => "Difficulty"
    case Routes => "Routes"
    case LbType => "LbType"
    case InBeta => "InBeta"
    case InPlayLater => "InPlayLater"
    case InFeatured => "InFeatured"
    case InSupporter => "InSupporter"
    case InFavorite => "InFavorite"
    case InDownloads => "InDownloads"
    case InReplays => "InReplays"
    case InEnvmix => "InEnvmix"
    case InHasRecord => "InHasRecord"
    case InLatestAuthor => "InLatestAuthor"
    case InLatestAwardedAuthor => "InLatestAwardedAuthor"
    case InScreenshot => "InScreenshot"
    case UploadedBefore => "UploadedBefore"
    case UploadedAfter => "UploadedAfter"
    case SurvivalMode => "SurvivalMode"
    case SurvivalBonusTime => "SurvivalBonusTime"
    case AuthorTimeMin => "AuthorTimeMin"
    case AuthorTimeMax => "AuthorTimeMax"
    case FreeSkipLimit => "FreeSkipLimit"
    case GoldSkipLimit => "GoldSkipLimit"
  }

  /** A property value, tagged with the branch of AppendValue its type takes. */
  datatype Value =
    | Null
    | Bool(b: bool)              // bool, bool?
    | Int(i: int)                // int?: appended as is
    | Str(s: string)             // string: appended as is, not escaped
    | Time(ms: int)              // TimeInt32: total milliseconds
    | Date(date: DateOnly)       // DateOnly: yyyy-MM-dd
    | Enum(ordinal: nat)         // an enumeration value: its ordinal
    | Set(elements: seq<nat>)    // HashSet of enumeration values, in iteration order
    | Formatted(text: string)    // TimeSpan: its own ToString()

  /** `prop.GetValue(this)`. */
  function ValueOf(r: Rules, f: Field): Value {
    match f
    case Site => Enum(SiteMaskValue(r.site))
    case EqualEnvironmentDistribution => Bool(r.equalEnvironmentDistribution)
    case EqualVehicleDistribution => Bool(r.equalVehicleDistribution)
    case Author => if r.author.Some? then Str(r.author.value) else Null
    case Environment => if r.environment.Some? then Set(r.environment.value) else Null
    case Name => if r.name.Some? then Str(r.name.value) else Null
    case Vehicle => if r.vehicle.Some? then Set(r.vehicle.value) else Null
    case PrimaryType => if r.primaryType.Some? then Enum(r.primaryType.value) else Null
    case Tag => if r.tag.Some? then Enum(r.tag.value) else Null
    case Mood => if r.mood.Some? then Set(r.mood.value) else Null
    case Difficulty => if r.difficulty.Some? then Set(r.difficulty.value) else Null
    case Routes => if r.routes.Some? then Set(r.routes.value) else Null
    case LbType => if r.lbType.Some? then Enum(r.lbType.value) else Null
    case InBeta => if r.inBeta.Some? then Bool(r.inBeta.value) else Null
    case InPlayLater => if r.inPlayLater.Some? then Bool(r.inPlayLater.value) else Null
    case InFeatured => if r.inFeatured.Some? then Bool(r.inFeatured.value) else Null
    case InSupporter => if r.inSupporter.Some? then Bool(r.inSupporter.value) else Null
    case InFavorite => if r.inFavorite.Some? then Bool(r.inFavorite.value) else Null
    case InDownloads => if r.inDownloads.Some? then Bool(r.inDownloads.value) else Null
    case InReplays => if r.inReplays.Some? then Bool(r.inReplays.value) else Null
    case InEnvmix => if r.inEnvmix.Some? then Bool(r.inEnvmix.value) else Null
    case InHasRecord => if r.inHasRecord.Some? then Bool(r.inHasRecord.value) else Null
    case InLatestAuthor => if r.inLatestAuthor.Some? then Bool(r.inLatestAuthor.value) else Null
    case InLatestAwardedAuthor => if r.inLatestAwardedAuthor.Some? then Bool(r.inLatestAwardedAuthor.value) else Null
    case InScreenshot => if r.inScreenshot.Some? then Bool(r.inScreenshot.value) else Null
    case UploadedBefore => if r.uploadedBefore.Some? then Date(r.uploadedBefore.value) else Null
    case UploadedAfter => if r.uploadedAfter.Some? then Date(r.uploadedAfter.value) else Null
    case SurvivalMode => Bool(r.survivalMode)
    case SurvivalBonusTime => if r.survivalBonusTime.Some? then Formatted(r.survivalBonusTime.value) else Null
    case AuthorTimeMin => if r.authorTimeMin.Some? then Time(r.authorTimeMin.value) else Null
    case AuthorTimeMax => if r.authorTimeMax.Some? then Time(r.authorTimeMax.value) else Null
    case FreeSkipLimit => if r.freeSkipLimit.Some? then Int(r.freeSkipLimit.value) else Null
    case GoldSkipLimit => if r.goldSkipLimit.Some? then Int(r.goldSkipLimit.value) else Null
  }

  // ---------------------------------------------------------------------
  // Site resolution

  /** `IsSiteValidWithEnvironments(site, envs)`, also used for the vehicles. */
  predicate IsSiteValidWithEnvironments(site: ESite, envs: Option<seq<nat>>, e: Ordinals) {
    envs.None? ||
    match site
    case Sunrise => e.island in envs.value || e.coast in envs.value || e.bay in envs.value
    case Original => e.snow in envs.value || e.desert in envs.value || e.rally in envs.value
    case TMNF => e.stadium in envs.value
    case Nations => e.stadium in envs.value
    case _ => true
  }

  /** On Sunrise and Original every requested environment must also be a
      requested vehicle, unless the vehicle set is null; an empty one
      admits no environment. */
  predicate Envimix(site: ESite, environment: Option<seq<nat>>, vehicle: Option<seq<nat>>) {
    !(&& (site == Sunrise || site == Original)
      && environment.Some? && |environment.value| > 0
      && vehicle.Some?
      && exists x :: x in environment.value && x !in vehicle.value)
  }

  /** `IsSiteValidWithEnvimix`, with its loop over the environments. */
  method IsSiteValidWithEnvimix(site: ESite, environment: Option<seq<nat>>, vehicle: Option<seq<nat>>)
    returns (valid: bool)
    ensures valid == Envimix(site, environment, vehicle)
  {
    if (site != Sunrise && site != Original) || environment.None? || |environment.value| == 0 {
      return true;
    }
    var envs := environment.value;
    for k := 0 to |envs|
      invariant forall j | 0 <= j < k :: vehicle.None? || envs[j] in vehicle.value
    {
      if vehicle.Some? && envs[k] !in vehicle.value {
        return false;
      }
    }
    return true;
  }

  /** All three compatibility tests of the any-site fallback. */
  predicate SiteCompatible(r: Rules, e: Ordinals, site: ESite) {
    && IsSiteValidWithEnvironments(site, r.environment, e)
    && IsSiteValidWithEnvironments(site, r.vehicle, e)
    && Envimix(site, r.environment, r.vehicle)
  }

  /** `Where` over a sequence of sites. */
  function SitesWhere(sites: seq<ESite>, keep: ESite -> bool): (kept: seq<ESite>)
    ensures forall s :: s in kept <==> s in sites && keep(s)
  {
    if sites == [] then []
    else (if keep(sites[0]) then [sites[0]] else []) + SitesWhere(sites[1..], keep)
  }

  /** The concrete sites the mask names. */
  function MatchingSites(mask: set<ESite>): (sites: seq<ESite>)
    ensures forall s :: s in sites <==> s != Any && s in mask
  {
    SitesWhere(SiteValues, s => s != Any && s in mask)
  }

  /** The concrete sites compatible with the environments and vehicles. */
  function CompatibleSites(r: Rules, e: Ordinals): (sites: seq<ESite>)
    ensures forall s :: s in sites <==> s != Any && SiteCompatible(r, e, s)
  {
    SitesWhere(SiteValues, s => s != Any && SiteCompatible(r, e, s))
  }

  /** `GetRandomSite`: one draw indexes the array; an empty array throws. */
  function GetRandomSite(draws: seq<nat>, sites: seq<ESite>): (r: Result<(ESite, seq<nat>), UrlError>)
    ensures r.Success? <==> |sites| > 0
    ensures r.Success? ==> r.value.0 in sites && r.value.1 == Rest(draws)
    ensures r.Failure? ==> r.error == IndexOutOfRange
  {
    var (k, rest) := Next(draws, |sites|);
    if k < |sites| then Success((sites[k], rest)) else Failure(IndexOutOfRange)
  }

  /** The site choice at the start of `ToUrl`: a site the mask names when
      there is one, whatever the other rules say; otherwise a site that
      passes all three compatibility tests; otherwise the empty array throws. */
  function ChooseSite(r: Rules, e: Ordinals, draws: seq<nat>): (res: Result<(ESite, seq<nat>), UrlError>)
    ensures res.Success? ==> res.value.0 != Any && res.value.1 == Rest(draws)
    ensures MatchingSites(r.site) != [] ==> res.Success? && res.value.0 in r.site
    ensures MatchingSites(r.site) == [] ==> (res.Success? <==> CompatibleSites(r, e) != [])
    ensures MatchingSites(r.site) == [] && res.Success? ==> SiteCompatible(r, e, res.value.0)
    ensures res.Failure? ==> res.error == IndexOutOfRange
  {
    var matching := MatchingSites(r.site);
    GetRandomSite(draws, if |matching| == 0 then CompatibleSites(r, e) else matching)
  }

  /** `GetSiteUrl`. */
  function GetSiteUrl(site: ESite): (r: Result<string, UrlError>)
    ensures r.Failure? <==> site == Any
  {
    match site
    case Any => Failure(Unreachable)
    case TMNF => Success("tmnf.exchange")
    case TMUF => Success("tmuf.exchange")
    case _ => Success(Lower(SiteName(site)) + ".tm-exchange.com")
  }

  /** The lower-cased name of a site on the tm-exchange.com domain. */
  lemma ExchangeHost(site: ESite, lower: string)
    requires site == Nations || site == Sunrise || site == Original
    requires |lower| == |SiteName(site)|
    requires forall k | 0 <= k < |lower| :: LowerChar(SiteName(site)[k]) == lower[k]
    ensures GetSiteUrl(site) == Success(lower + ".tm-exchange.com")
  {
    assert Lower(SiteName(site)) == lower;
  }

  lemma NationsHost()
    ensures GetSiteUrl(Nations) == Success("nations.tm-exchange.com")
  {
    ExchangeHost(Nations, "nations");
    assert "nations" + ".tm-exchange.com" == "nations.tm-exchange.com";
  }

  lemma SunriseHost()
    ensures GetSiteUrl(Sunrise) == Success("sunrise.tm-exchange.com")
  {
    ExchangeHost(Sunrise, "sunrise");
    assert "sunrise" + ".tm-exchange.com" == "sunrise.tm-exchange.com";
  }

  lemma OriginalHost()
    ensures GetSiteUrl(Original) == Success("original.tm-exchange.com")
  {
    ExchangeHost(Original, "original");
    assert "original" + ".tm-exchange.com" == "original.tm-exchange.com";
  }

  /** The host of every concrete site, written out. */
  lemma SiteHosts()
    ensures GetSiteUrl(TMNF) == Success("tmnf.exchange")
    ensures GetSiteUrl(TMUF) == Success("tmuf.exchange")
    ensures GetSiteUrl(Nations) == Success("nations.tm-exchange.com")
    ensures GetSiteUrl(Sunrise) == Success("sunrise.tm-exchange.com")
    ensures GetSiteUrl(Original) == Success("original.tm-exchange.com")
  {
    NationsHost();
    SunriseHost();
    OriginalHost();
  }

  /** Different sites are asked at different hosts. */
  lemma SiteHostsDistinct(a: ESite, b: ESite)
    requires a != Any && b != Any && a != b
    ensures GetSiteUrl(a).value != GetSiteUrl(b).value
  {
    SiteHosts();
    var ha, hb := GetSiteUrl(a).value, GetSiteUrl(b).value;
    assert |ha| != |hb| || ha[0] != hb[0] || ha[2] != hb[2];
  }

  // ---------------------------------------------------------------------
  // Equal distribution

  /** `GetRandomEnvironment`: one draw, from the configured set when it is
      non-empty, else from the site's own environments, else from the whole
      enumeration. */
  function GetRandomEnvironment(draws: seq<nat>, container: Option<seq<nat>>, site: ESite, e: Ordinals)
    : (r: (nat, seq<nat>))
    ensures r.1 == Rest(draws)
    ensures container.Some? && |container.value| > 0 ==> r.0 in container.value
    ensures (container.None? || |container.value| == 0) && site == Sunrise ==> r.0 in SunriseEnvValues(e)
    ensures (container.None? || |container.value| == 0) && site == Original ==> r.0 in OriginalEnvValues(e)
    ensures (container.None? || |container.value| == 0) && site != Sunrise && site != Original
            ==> r.0 < e.environmentCount
  {
    if container.Some? && |container.value| != 0 then
      var (k, rest) := Next(draws, |container.value|);
      (container.value[k], rest)
    else
      match site
      case Sunrise =>
        var (k, rest) := Next(draws, 3);
        (SunriseEnvValues(e)[k], rest)
      case Original =>
        var (k, rest) := Next(draws, 3);
        (OriginalEnvValues(e)[k], rest)
      case _ => Next(draws, e.environmentCount)
  }

  /** What an equally distributed property carries: one environment, taken
      from the configured set when it is non-empty and from the site's
      domain otherwise. */
  predicate DrawnSingleton(v: Value, container: Option<seq<nat>>, site: ESite, e: Ordinals) {
    && v.Set? && |v.elements| == 1
    && (if container.Some? && |container.value| > 0 then v.elements[0] in container.value
        else if site == Sunrise then v.elements[0] in SunriseEnvValues(e)
        else if site == Original then v.elements[0] in OriginalEnvValues(e)
        else v.elements[0] < e.environmentCount)
  }

  // ---------------------------------------------------------------------
  // Which properties become parameters

  /** `IsQueryProperty`. */
  predicate IsQueryProperty(f: Field) {
    f != Site && f != EqualEnvironmentDistribution && f != EqualVehicleDistribution
  }

  /** `val is null` or an enumerable without elements (strings included). */
  predicate IsNullOrEmpty(v: Value) {
    v.Null? || (v.Str? && v.s == "") || (v.Set? && v.elements == [])
  }

  /** `IsValidInNations`: the whole value is compared with Stadium or Race. */
  predicate IsValidInNations(f: Field, v: Value, e: Ordinals) {
    && !((f == Environment || f == Vehicle) && v != Enum(e.stadium))
    && !(f == PrimaryType && v != Enum(e.race))
  }

  /** Whether a query property with its (possibly redrawn) value is written. */
  predicate Kept(site: ESite, f: Field, v: Value, e: Ordinals) {
    !IsNullOrEmpty(v) && !((site == TMNF || site == Nations) && !IsValidInNations(f, v, e))
  }

  /** Whether the property takes a draw of its own. */
  predicate Redrawn(r: Rules, f: Field) {
    (r.equalEnvironmentDistribution && f == Environment) || (r.equalVehicleDistribution && f == Vehicle)
  }

  /** The value the loop works with: a fresh singleton for an equally
      distributed environment or vehicle set, the property's value otherwise. */
  function Adjusted(r: Rules, site: ESite, e: Ordinals, f: Field, draws: seq<nat>): (Value, seq<nat>)
  {
    if r.equalEnvironmentDistribution && f == Environment then
      var (x, rest) := GetRandomEnvironment(draws, r.environment, site, e);
      (Set([x]), rest)
    else if r.equalVehicleDistribution && f == Vehicle then
      var (x, rest) := GetRandomEnvironment(draws, r.vehicle, site, e);
      (Set([x]), rest)
    else
      (ValueOf(r, f), draws)
  }

  /** One query parameter: the property and the value written for it. */
  datatype Param = Param(field: Field, value: Value)

  /** What the loop does with one property, given the draws it meets: the
      value written for it, or nothing. */
  function Decision(r: Rules, site: ESite, e: Ordinals, f: Field, draws: seq<nat>): Option<Value>
  {
    if !IsQueryProperty(f) then None
    else
      var v := Adjusted(r, site, e, f, draws).0;
      if Kept(site, f, v, e) then Some(v) else None
  }

  /** A property is written only when it is a query property with a value
      that survives both filters; a property the loop does not redraw is
      written with its own value whenever it survives them, and a redrawn
      one with a single environment drawn from its set or the site's
      domain. */
  lemma DecisionSound(r: Rules, site: ESite, e: Ordinals, f: Field, draws: seq<nat>)
    ensures var res := Decision(r, site, e, f, draws);
      && (res.Some? ==> IsQueryProperty(f) && Kept(site, f, res.value, e))
      && (IsQueryProperty(f) && !Redrawn(r, f)
          ==> res == if Kept(site, f, ValueOf(r, f), e) then Some(ValueOf(r, f)) else None)
      && (res.Some? && r.equalEnvironmentDistribution && f == Environment
          ==> DrawnSingleton(res.value, r.environment, site, e))
      && (res.Some? && r.equalVehicleDistribution && f == Vehicle
          ==> DrawnSingleton(res.value, r.vehicle, site, e))
  {
  }

  /** Off TMNF and Nations a redrawn environment or vehicle is always
      written: a one-element set is never empty. */
  lemma RedrawnWritten(r: Rules, site: ESite, e: Ordinals, f: Field, draws: seq<nat>)
    requires site != TMNF && site != Nations && Redrawn(r, f)
    ensures Decision(r, site, e, f, draws).Some?
  {
    var v := Adjusted(r, site, e, f, draws).0;
    assert v.Set? && |v.elements| == 1;
  }

  /** Off TMNF and Nations a vehicle set that is configured, not empty and
      not redrawn is written as it is. */
  lemma StaticVehicleWritten(r: Rules, site: ESite, e: Ordinals, draws: seq<nat>)
    requires site != TMNF && site != Nations && !r.equalVehicleDistribution
    requires r.vehicle.Some? && r.vehicle.value != []
    ensures Decision(r, site, e, Vehicle, draws) == Some(Set(r.vehicle.value))
  {
  }

  /** The draws left after the loop has seen one property. */
  function Step(r: Rules, site: ESite, e: Ordinals, f: Field, draws: seq<nat>): (rest: seq<nat>)
    ensures !Redrawn(r, f) ==> rest == draws
    ensures Redrawn(r, f) ==> rest == Rest(draws)
  {
    if IsQueryProperty(f) then Adjusted(r, site, e, f, draws).1 else draws
  }

  function Out(f: Field, d: Option<Value>): seq<Param> {
    if d.Some? then [Param(f, d.value)] else []
  }

  /** The parameters the loop writes for the properties `fs`, in order. */
  function Emitted(r: Rules, site: ESite, e: Ordinals, fs: seq<Field>, draws: seq<nat>): seq<Param>
    decreases |fs|
  {
    if fs == [] then []
    else Out(fs[0], Decision(r, site, e, fs[0], draws)) + Emitted(r, site, e, fs[1..], Step(r, site, e, fs[0], draws))
  }

  /** The draws left after the loop has seen all of `fs`. */
  function DrawsThrough(r: Rules, site: ESite, e: Ordinals, fs: seq<Field>, draws: seq<nat>): seq<nat>
    decreases |fs|
  {
    if fs == [] then draws else DrawsThrough(r, site, e, fs[1..], Step(r, site, e, fs[0], draws))
  }

  /** The value of the first parameter for a property, if any. */
  function Lookup(ps: seq<Param>, f: Field): Option<Value> {
    if ps == [] then None else if ps[0].field == f then Some(ps[0].value) else Lookup(ps[1..], f)
  }

  predicate Distinct(fs: seq<Field>) {
    forall j, k | 0 <= j < k < |fs| :: fs[j] != fs[k]
  }

  /** The properties of the rule class, in declaration order. */
  function Fields(): (fs: seq<Field>)
    ensures |fs| == FieldCount && forall i | 0 <= i < FieldCount :: fs[i] == FieldAt(i)
  {
    seq(FieldCount, i requires 0 <= i < FieldCount => FieldAt(i))
  }

  /** Every property is listed, once. */
  lemma FieldsListed(f: Field)
    ensures Distinct(Fields())
    ensures f in Fields()
  {
    forall j, k | 0 <= j < k < |Fields()| ensures Fields()[j] != Fields()[k] {
      RankOfFieldAt(j);
      RankOfFieldAt(k);
    }
    assert Fields()[Rank(f)] == f;
  }

  // ---------------------------------------------------------------------
  // Serialisation

  /** `date.ToString("yyyy-MM-dd")`, with the year, month and day of the
      Gregorian calendar, as the invariant culture writes them. The source
      passes no format provider, so it writes the current culture's
      calendar (a Thai Buddhist year under th-TH, say). */
  function FormatDate(d: DateOnly): string {
    PadDigits(d.year, 4) + "-" + PadDigits(d.month, 2) + "-" + PadDigits(d.day, 2)
  }

  function OrdinalTexts(xs: seq<nat>): seq<string> {
    seq(|xs|, k requires 0 <= k < |xs| => IntToDecimal(xs[k]))
  }

  /** What AppendValue writes for a value. */
  function Encode(v: Value): string {
    match v
    case Time(ms) => IntToDecimal(ms)
    case Bool(b) => if b then "1" else "0"
    case Date(d) => FormatDate(d)
    case Set(xs) => Join(OrdinalTexts(xs), "%2C")
    case Enum(o) => IntToDecimal(o)
    case Int(i) => IntToDecimal(i)
    case Str(s) => s
    case Formatted(t) => t
    case Null => ""
  }

  /** A time, a number or an enumeration ordinal is written as its decimal
      text, which reads back as the number. */
  lemma NumberEncodingReadBack(v: Value)
    requires v.Time? || v.Int? || v.Enum?
    ensures ParseInt(Encode(v)) == Some(if v.Time? then v.ms else if v.Int? then v.i else v.ordinal)
  {
    IntToDecimalRoundTrip(if v.Time? then v.ms else if v.Int? then v.i else v.ordinal);
  }

  /** A date is written as `yyyy-MM-dd`, whose three fields read back. */
  lemma DateEncodingReadBack(d: DateOnly)
    ensures var s := Encode(Date(d));
      && |s| == 10 && s[4] == '-' && s[7] == '-'
      && AllDigits(s[0..4]) && DigitsValue(s[0..4]) == d.year
      && AllDigits(s[5..7]) && DigitsValue(s[5..7]) == d.month
      && AllDigits(s[8..10]) && DigitsValue(s[8..10]) == d.day
  {
    var s := Encode(Date(d));
    assert s[0..4] == PadDigits(d.year, 4);
    assert s[5..7] == PadDigits(d.month, 2);
    assert s[8..10] == PadDigits(d.day, 2);
    PadDigitsRoundTrip(d.year, 4);
    PadDigitsRoundTrip(d.month, 2);
    PadDigitsRoundTrip(d.day, 2);
  }

  /** An ordinal's decimal text read back. */
  function ReadOrdinal(t: string): Option<nat> {
    match ParseInt(t)
    case Some(n) => if n >= 0 then Some(n as nat) else None
    case None => None
  }

  /** The ordinals after the first: each piece after a '%' must start
      with "2C", the rest of `%2C`, and then hold an ordinal. */
  function ReadLater(pieces: seq<string>): Option<seq<nat>>
    decreases |pieces|
  {
    if pieces == [] then Some([])
    else if |pieces[0]| >= 2 && pieces[0][..2] == "2C" then
      match (ReadOrdinal(pieces[0][2..]), ReadLater(pieces[1..]))
      case (Some(n), Some(rest)) => Some([n] + rest)
      case _ => None
    else None
  }

  /** Reads a set's query text back as its ordinals: the text is cut at
      every '%', the first piece is an ordinal, and every later piece is
      "2C" followed by one. */
  function DecodeSet(s: string): Option<seq<nat>> {
    var pieces := Split(s, '%');
    match (ReadOrdinal(pieces[0]), ReadLater(pieces[1..]))
    case (Some(n), Some(rest)) => Some([n] + rest)
    case _ => None
  }

  /** The pieces after the first '%' of a set's text. */
  function Escaped(ys: seq<nat>): seq<string> {
    seq(|ys|, k requires 0 <= k < |ys| => "2C" + IntToDecimal(ys[k]))
  }

  lemma {:induction false} ReadLaterEscaped(ys: seq<nat>)
    ensures ReadLater(Escaped(ys)) == Some(ys)
  {
    if ys != [] {
      var pieces := Escaped(ys);
      assert pieces[1..] == Escaped(ys[1..]);
      assert pieces[0][..2] == "2C";
      assert pieces[0][2..] == IntToDecimal(ys[0]);
      IntToDecimalRoundTrip(ys[0]);
      ReadLaterEscaped(ys[1..]);
      assert [ys[0]] + ys[1..] == ys;
    }
  }

  lemma EscapedCons(ys: seq<nat>)
    requires ys != []
    ensures Escaped(ys) == ["2C" + IntToDecimal(ys[0])] + Escaped(ys[1..])
  {
  }

  lemma PercentFirst(head: string, rest: string)
    ensures head + "%2C" + rest == head + ['%'] + ("2C" + rest)
  {
  }

  /** Cut at every '%', a set's text gives the first ordinal's text and
      then "2C" and the text of each later ordinal. */
  lemma {:induction false} SetTextPieces(xs: seq<nat>)
    requires xs != []
    ensures Split(Join(OrdinalTexts(xs), "%2C"), '%') == [IntToDecimal(xs[0])] + Escaped(xs[1..])
  {
    var texts := OrdinalTexts(xs);
    var head := IntToDecimal(xs[0]);
    assert texts[0] == head;
    IntToDecimalChars(xs[0], '%');
    if |xs| == 1 {
      SplitWithout(head, '%');
      assert Escaped(xs[1..]) == [];
    } else {
      assert texts[1..] == OrdinalTexts(xs[1..]);
      var rest := Join(OrdinalTexts(xs[1..]), "%2C");
      assert Join(texts, "%2C") == head + "%2C" + rest;
      PercentFirst(head, rest);
      SplitAfter(head, '%', "2C" + rest);
      SetTextPieces(xs[1..]);
      SplitPrepend("2C", '%', rest);
      EscapedCons(xs[1..]);
      assert xs[1..][1..] == xs[2..];
    }
  }

  /** A set is written as its ordinals joined by `%2C`, which read back as
      the set's elements in order; the empty set is written as nothing,
      which reads back as no set. */
  lemma SetEncodingReadBack(xs: seq<nat>)
    ensures DecodeSet(Encode(Set(xs))) == if xs == [] then None else Some(xs)
  {
    if xs == [] {
      assert Encode(Set(xs)) == "";
    } else {
      SetTextPieces(xs);
      IntToDecimalRoundTrip(xs[0]);
      ReadLaterEscaped(xs[1..]);
      assert [xs[0]] + xs[1..] == xs;
    }
  }

  function Depth(v: Value): nat {
    if v.Set? then 1 else 0
  }

  /** `AppendValue`: appends the encoding of a value, a set element by
      element with "%2C" between them. */
  method AppendValue(b: string, v: Value) returns (out: string)
    ensures out == b + Encode(v)
    decreases Depth(v)
  {
    match v {
      case Time(ms) =>
        out := b + IntToDecimal(ms);
      case Bool(x) =>
        out := b + (if x then "1" else "0");
      case Date(d) =>
        out := b + FormatDate(d);
      case Set(xs) =>
        out := b;
        var first := true;
        for k := 0 to |xs|
          invariant first <==> k == 0
          invariant out == b + Join(OrdinalTexts(xs[..k]), "%2C")
        {
          ghost var texts, text := OrdinalTexts(xs[..k]), IntToDecimal(xs[k]);
          ghost var separator := if first then "" else "%2C";
          if first {
            first := false;
          } else {
            out := out + "%2C";
          }
          assert OrdinalTexts(xs[..k + 1]) == texts + [text];
          JoinSnoc(texts, text, "%2C");
          out := AppendValue(out, Enum(xs[k]));
          AppendedAfter(b, Join(texts, "%2C"), separator, text, Join(texts + [text], "%2C"));
        }
        assert xs[..|xs|] == xs;
      case Enum(o) =>
        out := b + IntToDecimal(o);
      case Int(i) =>
        out := b + IntToDecimal(i);
      case Str(s) =>
        out := b + s;
      case Formatted(t) =>
        out := b + t;
      case Null =>
        out := b;
    }
  }

  /** `name=value` with the property name lower-cased. */
  function Pair(p: Param): string {
    Lower(FieldName(p.field)) + "=" + Encode(p.value)
  }

  function Pairs(ps: seq<Param>): seq<string> {
    seq(|ps|, k requires 0 <= k < |ps| => Pair(ps[k]))
  }

  /** The query string: '?' before the first parameter, '&' between them. */
  function Query(ps: seq<Param>): string {
    if ps == [] then "" else "?" + Join(Pairs(ps), "&")
  }

  lemma QuerySnoc(ps: seq<Param>, p: Param)
    ensures Query(ps + [p]) == Query(ps) + (if ps == [] then "?" else "&") + Pair(p)
  {
    var pairs := Pairs(ps);
    assert Pairs(ps + [p]) == pairs + [Pair(p)];
    JoinSnoc(pairs, Pair(p), "&");
    if ps != [] {
      AppendedAfter("?", Join(pairs, "&"), "&", Pair(p), Join(pairs + [Pair(p)], "&"));
    }
  }

  /** The address `ToUrl` returns, or the exception it throws. */
  function Url(r: Rules, e: Ordinals, draws: seq<nat>): (res: Result<string, UrlError>)
    ensures res.Failure? <==> MatchingSites(r.site) == [] && CompatibleSites(r, e) == []
    ensures res.Failure? ==> res.error == IndexOutOfRange
  {
    match ChooseSite(r, e, draws)
    case Failure(err) => Failure(err)
    case Success((site, rest)) =>
      Success("https://" + GetSiteUrl(site).value + "/trackrandom" + Query(Emitted(r, site, e, Fields(), rest)))
  }

  /** One turn of the loop that writes nothing. */
  lemma EmittedSkip(r: Rules, site: ESite, e: Ordinals, fs: seq<Field>, i: nat, draws: seq<nat>)
    requires i < |fs| && Decision(r, site, e, fs[i], draws).None?
    ensures Emitted(r, site, e, fs[i..], draws) == Emitted(r, site, e, fs[i + 1..], Step(r, site, e, fs[i], draws))
  {
    assert fs[i..][1..] == fs[i + 1..];
  }

  /** One turn of the loop that writes a parameter. */
  lemma EmittedKeep(r: Rules, site: ESite, e: Ordinals, fs: seq<Field>, i: nat, draws: seq<nat>, v: Value)
    requires i < |fs| && Decision(r, site, e, fs[i], draws) == Some(v)
    ensures Emitted(r, site, e, fs[i..], draws)
            == [Param(fs[i], v)] + Emitted(r, site, e, fs[i + 1..], Step(r, site, e, fs[i], draws))
  {
    assert fs[i..][1..] == fs[i + 1..];
  }

  /** The value of one query property after the equal-distribution redraws. */
  method RedrawnValue(r: Rules, site: ESite, e: Ordinals, f: Field, random: seq<nat>)
    returns (val: Value, rest: seq<nat>)
    ensures (val, rest) == Adjusted(r, site, e, f, random)
  {
    val, rest := ValueOf(r, f), random;
    if r.equalEnvironmentDistribution && f == Environment {
      var drawn := GetRandomEnvironment(rest, r.environment, site, e);
      rest := drawn.1;
      val := Set([drawn.0]);
    } else if r.equalVehicleDistribution && f == Vehicle {
      var drawn := GetRandomEnvironment(rest, r.vehicle, site, e);
      rest := drawn.1;
      val := Set([drawn.0]);
    }
  }

  /** The two tests that drop a property: an empty value, and a value the
      Nations sites do not take. */
  method Keeps(site: ESite, f: Field, val: Value, e: Ordinals) returns (keep: bool)
    ensures keep == Kept(site, f, val, e)
  {
    keep := true;
    if IsNullOrEmpty(val) {
      keep := false;
    } else if (site == TMNF || site == Nations) && !IsValidInNations(f, val, e) {
      keep := false;
    }
  }

  /** The value of one query property after the equal-distribution redraws,
      and whether it is written. */
  method PropertyValue(r: Rules, site: ESite, e: Ordinals, f: Field, random: seq<nat>)
    returns (val: Value, rest: seq<nat>, keep: bool)
    requires IsQueryProperty(f)
    ensures rest == Step(r, site, e, f, random)
    ensures keep <==> Decision(r, site, e, f, random).Some?
    ensures keep ==> Decision(r, site, e, f, random) == Some(val)
  {
    val, rest := RedrawnValue(r, site, e, f, random);
    keep := Keeps(site, f, val, e);
  }

  /** Writes `name=value` for one parameter. */
  method AppendParam(start: string, p: Param) returns (b: string)
    ensures b == start + Pair(p)
  {
    b := start + Lower(FieldName(p.field));
    b := b + "=";
    b := AppendValue(b, p.value);
  }

  /** '?' before the first parameter, '&' before the others, then the
      parameter itself. */
  method AppendSeparated(b: string, first: bool, p: Param, ghost start: string, ghost emitted: seq<Param>)
    returns (out: string)
    requires b == start + Query(emitted)
    requires first <==> emitted == []
    ensures out == start + Query(emitted + [p])
  {
    QuerySnoc(emitted, p);
    var separator := if first then "?" else "&";
    out := AppendParam(b + separator, p);
    AppendedAfter(start, Query(emitted), separator, Pair(p), Query(emitted + [p]));
  }

  /** Appending the pieces of a longer query one after the other. */
  lemma AppendedAfter(start: string, query: string, separator: string, pair: string, longer: string)
    requires longer == query + separator + pair
    ensures start + query + separator + pair == start + longer
  {
  }

  /** The loop of `ToUrl` over the properties `fs`: appends the query. */
  method AppendQuery(start: string, r: Rules, site: ESite, e: Ordinals, fs: seq<Field>, draws: seq<nat>)
    returns (b: string)
    ensures b == start + Query(Emitted(r, site, e, fs, draws))
  {
    b := start;
    var random := draws;
    ghost var emitted: seq<Param> := [];
    var first := true;
    for i := 0 to |fs|
      invariant Emitted(r, site, e, fs, draws) == emitted + Emitted(r, site, e, fs[i..], random)
      invariant b == start + Query(emitted)
      invariant first <==> emitted == []
    {
      var f := fs[i];
      if !IsQueryProperty(f) {
        EmittedSkip(r, site, e, fs, i, random);
        continue;
      }
      ghost var before := random;
      var val, keep;
      val, random, keep := PropertyValue(r, site, e, f, random);
      if !keep {
        EmittedSkip(r, site, e, fs, i, before);
        continue;
      }
      EmittedKeep(r, site, e, fs, i, before, val);
      var p := Param(f, val);
      Regroup(Emitted(r, site, e, fs, draws), emitted, Emitted(r, site, e, fs[i..], before), p,
              Emitted(r, site, e, fs[i + 1..], random));
      b := AppendSeparated(b, first, p, start, emitted);
      first := false;
      emitted := emitted + [p];
    }
    assert fs[|fs|..] == [];
    assert emitted + [] == emitted;
  }

  /** One parameter moves from the part still to write to the part written. */
  lemma Regroup(all: seq<Param>, written: seq<Param>, later: seq<Param>, p: Param, rest: seq<Param>)
    requires all == written + later && later == [p] + rest
    ensures all == (written + [p]) + rest
  {
  }

  /** `ToUrl`. */
  method ToUrl(r: Rules, e: Ordinals, draws: seq<nat>) returns (res: Result<string, UrlError>)
    ensures res == Url(r, e, draws)
  {
    var b := "https://";
    var choice := ChooseSite(r, e, draws);
    if choice.Failure? {
      return Failure(choice.error);
    }
    var site := choice.value.0;
    b := b + GetSiteUrl(site).value;
    b := b + "/trackrandom";
    b := AppendQuery(b, r, site, e, Fields(), choice.value.1);
    return Success(b);
  }
}
