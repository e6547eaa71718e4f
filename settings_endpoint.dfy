/** `PUT /settings`: the request body's four sections are translated field by field into
    keyword arguments for the repository's `update_settings`. */
module SettingsEndpoint {
  import opened Common
  import opened SettingsRepo

  // ---------------------------------------------------------------- Python on JSON values

  /** `key in v`: dictionary membership, substring test or list membership; `None` where
      Python raises a `TypeError` (numbers, booleans, `None`). */
  function HasKey(v: Json, key: string): (r: Option<bool>)
    ensures r.None? <==> !(v.JObject? || v.JStr? || v.JList?)
    ensures r == Some(true) && !v.JObject? ==> v.JStr? || v.JList?
    ensures v.JObject? ==> r == Some(key in v.fields)
  {
    match v
    case JObject(m) => Some(key in m)
    case JStr(s) => Some(Contains(s, key))
    case JList(items) => Some(JStr(key) in items)
    case _ => None
  }

  /** `v[key]` for a string key: only a dictionary holding the key answers. */
  function Get(v: Json, key: string): (r: Option<Json>)
    ensures r.Some? <==> v.JObject? && key in v.fields
  {
    if v.JObject? && key in v.fields then Some(v.fields[key]) else None
  }

  /** `SettingsRepository._is_masked_key` on a JSON value: false for a falsy value, the
      string test for a string, and `None` where `.startswith` does not exist. */
  function IsMaskedJson(v: Json): (r: Option<bool>)
    ensures r.None? <==> Truthy(v) && !v.JStr?
    ensures r == Some(true) <==> v.JStr? && IsMaskedKey(v.s)
  {
    if !Truthy(v) then Some(false)
    else if v.JStr? then Some(IsMaskedKey(v.s))
    else None
  }

  /** `encode_api_key` on a value `IsMaskedJson` accepted: `None` (stored as SQL NULL) for a
      falsy value, otherwise the ciphertext of the string. */
  function EncodeJson(c: Cipher, v: Json): (r: Json)
    ensures r.JNull? || r.JStr?
    ensures !Truthy(v) ==> r == JNull
    ensures v.JStr? && v.s != "" && !IsMaskedKey(v.s) && c.encrypt(v.s).Some? ==> r == JStr(c.encrypt(v.s).value)
  {
    if !v.JStr? then JNull
    else match EncodeApiKey(c, v.s)
      case None => JNull
      case Some(token) => JStr(token)
  }

  // ---------------------------------------------------------------- the translation table

  /** The four sections of the request body. */
  datatype Section = DataApi | TradingControls | AiConfig | Display

  function SectionName(s: Section): string
  {
    match s
    case DataApi => "data_api"
    case TradingControls => "trading_controls"
    case AiConfig => "ai_config"
    case Display => "display"
  }

  /** One `if '<src>' in section:` block: a copy under a new name, a copy under the
      column's own name, or an API key that is encoded unless it is still masked. */
  datatype Field = Renamed(src: string, dst: Column) | Copied(dst: Column) | ApiKey(dst: Column)

  function Src(f: Field): string
  {
    match f
    case Renamed(src, _) => src
    case Copied(dst) => Name(dst)
    case ApiKey(dst) => Name(dst)
  }

  /** The number of blocks in `update_settings`. */
  const FIELD_COUNT := 18

  /** The `i`-th block of `update_settings`, with the section it reads. */
  function FieldAt(i: int): (Section, Field)
    requires 0 <= i < FIELD_COUNT
  {
    if i == 0 then (DataApi, Renamed("refresh_interval", DataRefreshInterval))
    else if i == 1 then (DataApi, Copied(ActiveProviders))
    else if i == 2 then (DataApi, ApiKey(AlpacaApiKey))
    else if i == 3 then (DataApi, ApiKey(AlpacaSecretKey))
    else if i == 4 then (DataApi, ApiKey(AlphaVantageApiKey))
    else if i == 5 then (DataApi, ApiKey(PolygonApiKey))
    else if i == 6 then (DataApi, ApiKey(CoinbaseApiKey))
    else if i == 7 then (DataApi, ApiKey(CoinbaseApiSecret))
    else if i == 8 then (TradingControls, Copied(PaperTrading))
    else if i == 9 then (TradingControls, Copied(EnableAutoTrading))
    else if i == 10 then (TradingControls, Copied(MaxPositionSize))
    else if i == 11 then (TradingControls, Copied(MaxDailyLoss))
    else if i == 12 then (TradingControls, Copied(StopLossPct))
    else if i == 13 then (AiConfig, Copied(AgentWeights))
    else if i == 14 then (AiConfig, Copied(AnalysisCadence))
    else if i == 15 then (Display, Copied(Theme))
    else if i == 16 then (Display, Copied(LayoutDensity))
    else (Display, Copied(ShowNewsTicker))
  }

  /** The blocks of `update_settings` from the `i`-th on, in order. */
  function FieldsFrom(i: nat): (r: seq<(Section, Field)>)
    requires i <= FIELD_COUNT
    ensures |r| == FIELD_COUNT - i && forall j :: 0 <= j < |r| ==> r[j] == FieldAt(i + j)
    decreases FIELD_COUNT - i
  {
    if i == FIELD_COUNT then [] else [FieldAt(i)] + FieldsFrom(i + 1)
  }

  /** The blocks of `update_settings`, in order. */
  const FIELDS: seq<(Section, Field)> := FieldsFrom(0)

  function Dsts(fs: seq<(Section, Field)>): (r: seq<Column>)
    ensures |r| == |fs| && forall i :: 0 <= i < |fs| ==> r[i] == fs[i].1.dst
  {
    if fs == [] then [] else [fs[0].1.dst] + Dsts(fs[1..])
  }

  /** The position of a column in the table's declaration. */
  function Ord(c: Column): nat
  {
    match c
    case Id => 0
    case UserId => 1
    case DataRefreshInterval => 2
    case ActiveProviders => 3
    case AlpacaApiKey => 4
    case AlpacaSecretKey => 5
    case AlphaVantageApiKey => 6
    case PolygonApiKey => 7
    case CoinbaseApiKey => 8
    case CoinbaseApiSecret => 9
    case PaperTrading => 10
    case EnableAutoTrading => 11
    case MaxPositionSize => 12
    case MaxDailyLoss => 13
    case StopLossPct => 14
    case AgentWeights => 15
    case AnalysisCadence => 16
    case Theme => 17
    case LayoutDensity => 18
    case ShowNewsTicker => 19
    case CreatedAt => 20
    case UpdatedAt => 21
  }

  predicate Ascending(cs: seq<Column>)
  {
    forall i :: 0 <= i < |cs| - 1 ==> Ord(cs[i]) < Ord(cs[i + 1])
  }

  lemma {:induction false} AscendingDistinct(cs: seq<Column>)
    requires Ascending(cs)
    ensures Distinct(cs)
    ensures forall i :: 0 <= i < |cs| ==> Ord(cs[0]) <= Ord(cs[i])
  {
    if cs != [] {
      AscendingDistinct(cs[1..]);
      assert forall i :: 1 <= i < |cs| ==> cs[i] == cs[1..][i - 1];
    }
  }

  /** The blocks follow the columns' declaration order, two places on. */
  lemma FieldOrder(i: int)
    requires 0 <= i < FIELD_COUNT
    ensures Ord(FieldAt(i).1.dst) == i + 2
  {
  }

  /** Each column is written by at most one block. */
  lemma FieldsWriteDistinctColumns()
    ensures Distinct(Dsts(FIELDS))
  {
    var d := Dsts(FIELDS);
    forall i, j | 0 <= i < j < |d| ensures d[i] != d[j] {
      FieldOrder(i);
      FieldOrder(j);
    }
  }

  /** Only the blocks of `data_api` handle API keys, and each key column has one. */
  lemma KeyColumnsAreApiKeys()
    ensures forall i :: 0 <= i < |FIELDS| && IsKeyColumn(FIELDS[i].1.dst) ==> FIELDS[i].1.ApiKey?
  {
    forall i | 0 <= i < |FIELDS| && IsKeyColumn(FIELDS[i].1.dst) ensures FIELDS[i].1.ApiKey? {
      FieldOrder(i);
    }
  }

  // ---------------------------------------------------------------- update_data

  /** One block on its section's value: the keyword it adds (none or one), or `None` where
      the block raises. */
  function FieldUpdate(c: Cipher, section: Json, f: Field): (r: Option<Kwargs>)
    ensures r.Some? ==> |r.value| <= 1 && forall e :: e in r.value ==> e.0 == Name(f.dst)
    ensures r.Some? && section.JObject? && Src(f) !in section.fields ==> r.value == []
  {
    match HasKey(section, Src(f))
    case None => None
    case Some(false) => Some([])
    case Some(true) =>
      match Get(section, Src(f))
      case None => None
      case Some(v) =>
        if f.ApiKey? then
          match IsMaskedJson(v)
          case None => None
          case Some(true) => Some([])
          case Some(false) => Some([(Name(f.dst), EncodeJson(c, v))])
        else Some([(Name(f.dst), v)])
  }

  /** `update_data`, in insertion order, for the blocks `fs`; `None` when a block raises
      (the endpoint then answers with an error and writes nothing). */
  function Updates(c: Cipher, payload: map<string, Json>, fs: seq<(Section, Field)>): Option<Kwargs>
  {
    if fs == [] then Some([])
    else
      var here := if SectionName(fs[0].0) in payload then FieldUpdate(c, payload[SectionName(fs[0].0)], fs[0].1) else Some([]);
      match here
      case None => None
      case Some(a) =>
        match Updates(c, payload, fs[1..])
        case None => None
        case Some(b) => Some(a + b)
  }

  /** The `update_data` that `PUT /settings` builds from its request body. */
  function UpdateData(c: Cipher, payload: map<string, Json>): Option<Kwargs>
  {
    Updates(c, payload, FIELDS)
  }

  /** The keyword the first block adds, if any, followed by the rest. */
  lemma UpdatesValues(c: Cipher, payload: map<string, Json>, fs: seq<(Section, Field)>, k: string)
    requires fs != [] && Updates(c, payload, fs).Some?
    ensures SectionName(fs[0].0) in payload ==> FieldUpdate(c, payload[SectionName(fs[0].0)], fs[0].1).Some?
    ensures Updates(c, payload, fs[1..]).Some?
    ensures ValuesFor(Updates(c, payload, fs).value, k)
      == (if SectionName(fs[0].0) in payload then ValuesFor(FieldUpdate(c, payload[SectionName(fs[0].0)], fs[0].1).value, k) else [])
         + ValuesFor(Updates(c, payload, fs[1..]).value, k)
  {
    var here := if SectionName(fs[0].0) in payload then FieldUpdate(c, payload[SectionName(fs[0].0)], fs[0].1) else Some([]);
    ValuesForAppend(here.value, Updates(c, payload, fs[1..]).value, k);
  }

  /** The first block adds nothing under the name of another column. */
  lemma HeadOtherColumn(c: Cipher, payload: map<string, Json>, fs: seq<(Section, Field)>, col: Column)
    requires fs != [] && fs[0].1.dst != col
    requires SectionName(fs[0].0) in payload ==> FieldUpdate(c, payload[SectionName(fs[0].0)], fs[0].1).Some?
    ensures SectionName(fs[0].0) in payload ==> ValuesFor(FieldUpdate(c, payload[SectionName(fs[0].0)], fs[0].1).value, Name(col)) == []
  {
    var dst := fs[0].1.dst;
    NameRoundTrip(col);
    NameRoundTrip(dst);
    assert Name(dst) != Name(col);
    if SectionName(fs[0].0) in payload {
      var u := FieldUpdate(c, payload[SectionName(fs[0].0)], fs[0].1);
      OtherKeyValues(u.value, Name(dst), Name(col));
    }
  }

  /** Every keyword of `update_data` is the name of a settings column. */
  lemma {:induction false} UpdatesNameColumns(c: Cipher, payload: map<string, Json>, fs: seq<(Section, Field)>)
    requires Updates(c, payload, fs).Some?
    ensures forall e :: e in Updates(c, payload, fs).value ==> ColumnNamed(e.0).Some?
  {
    if fs != [] {
      var here := if SectionName(fs[0].0) in payload then FieldUpdate(c, payload[SectionName(fs[0].0)], fs[0].1) else Some([]);
      UpdatesNameColumns(c, payload, fs[1..]);
      NameRoundTrip(fs[0].1.dst);
      assert Updates(c, payload, fs).value == here.value + Updates(c, payload, fs[1..]).value;
    }
  }

  /** A block's keyword shows up in `update_data` exactly as the block produced it, and a
      block whose section is absent adds nothing. */
  lemma {:induction false} UpdatesFor(c: Cipher, payload: map<string, Json>, fs: seq<(Section, Field)>, j: int)
    requires Distinct(Dsts(fs)) && 0 <= j < |fs|
    requires Updates(c, payload, fs).Some?
    ensures SectionName(fs[j].0) in payload ==>
      FieldUpdate(c, payload[SectionName(fs[j].0)], fs[j].1).Some? &&
      ValuesFor(Updates(c, payload, fs).value, Name(fs[j].1.dst))
        == ValuesFor(FieldUpdate(c, payload[SectionName(fs[j].0)], fs[j].1).value, Name(fs[j].1.dst))
    ensures SectionName(fs[j].0) !in payload ==> ValuesFor(Updates(c, payload, fs).value, Name(fs[j].1.dst)) == []
  {
    var col := fs[j].1.dst;
    UpdatesValues(c, payload, fs, Name(col));
    assert Dsts(fs)[1..] == Dsts(fs[1..]);
    if j == 0 {
      assert col !in Dsts(fs[1..]);
      UpdatesUnlisted(c, payload, fs[1..], col);
    } else {
      assert Dsts(fs)[0] != Dsts(fs)[j];
      HeadOtherColumn(c, payload, fs, col);
      assert fs[1..][j - 1] == fs[j];
      UpdatesFor(c, payload, fs[1..], j - 1);
    }
  }

  /** A column no block writes never appears in `update_data`. */
  lemma {:induction false} UpdatesUnlisted(c: Cipher, payload: map<string, Json>, fs: seq<(Section, Field)>, col: Column)
    requires col !in Dsts(fs)
    requires Updates(c, payload, fs).Some?
    ensures ValuesFor(Updates(c, payload, fs).value, Name(col)) == []
  {
    if fs != [] {
      UpdatesValues(c, payload, fs, Name(col));
      assert Dsts(fs) == [fs[0].1.dst] + Dsts(fs[1..]);
      HeadOtherColumn(c, payload, fs, col);
      UpdatesUnlisted(c, payload, fs[1..], col);
    }
  }

  // ---------------------------------------------------------------- one block

  /** A block whose key is in its section (a dictionary) copies the value, or, for an API
      key, skips a masked string, stores `None` for a falsy value, stores the ciphertext of
      any other string and raises for any other value. */
  lemma FieldOnDictionary(c: Cipher, m: map<string, Json>, f: Field)
    requires Src(f) in m
    ensures !f.ApiKey? ==> FieldUpdate(c, JObject(m), f) == Some([(Name(f.dst), m[Src(f)])])
    ensures f.ApiKey? && m[Src(f)].JStr? && IsMaskedKey(m[Src(f)].s) ==> FieldUpdate(c, JObject(m), f) == Some([])
    ensures f.ApiKey? && !Truthy(m[Src(f)]) ==> FieldUpdate(c, JObject(m), f) == Some([(Name(f.dst), JNull)])
    ensures f.ApiKey? && m[Src(f)].JStr? && m[Src(f)].s != "" && !IsMaskedKey(m[Src(f)].s) ==>
      FieldUpdate(c, JObject(m), f) == Some([(Name(f.dst), EncodeJson(c, m[Src(f)]))])
    ensures f.ApiKey? && Truthy(m[Src(f)]) && !m[Src(f)].JStr? ==> FieldUpdate(c, JObject(m), f).None?
  {
  }

  /** `'key' in section` raises unless the section is a dictionary, a string or a list,
      and a string or list that holds the key cannot be indexed by it. */
  lemma FieldOnNonDictionary(c: Cipher, section: Json, f: Field)
    requires !section.JObject?
    ensures !(section.JStr? || section.JList?) ==> FieldUpdate(c, section, f).None?
    ensures section.JStr? ==> (FieldUpdate(c, section, f).None? <==> Contains(section.s, Src(f)))
    ensures section.JList? ==> (FieldUpdate(c, section, f).None? <==> JStr(Src(f)) in section.items)
    ensures FieldUpdate(c, section, f).Some? ==> FieldUpdate(c, section, f).value == []
  {
  }

  // ---------------------------------------------------------------- the stored row

  /** The row `PUT /settings` leaves, from the row it started with; `None` when the request
      is rejected and nothing is written. */
  function SettingsAfter(before: Row, c: Cipher, payload: map<string, Json>): Option<Row>
  {
    match UpdateData(c, payload)
    case None => None
    case Some(kw) => Some(Assign(before, KwargsMap(kw)))
  }

  /** The keywords the `i`-th block contributes to `update_data`. */
  lemma BlockValues(c: Cipher, payload: map<string, Json>, j: int)
    requires 0 <= j < |FIELDS| && UpdateData(c, payload).Some?
    ensures SectionName(FIELDS[j].0) in payload ==>
      FieldUpdate(c, payload[SectionName(FIELDS[j].0)], FIELDS[j].1).Some? &&
      ValuesFor(UpdateData(c, payload).value, Name(FIELDS[j].1.dst))
        == ValuesFor(FieldUpdate(c, payload[SectionName(FIELDS[j].0)], FIELDS[j].1).value, Name(FIELDS[j].1.dst))
    ensures SectionName(FIELDS[j].0) !in payload ==> ValuesFor(UpdateData(c, payload).value, Name(FIELDS[j].1.dst)) == []
  {
    FieldsWriteDistinctColumns();
    UpdatesFor(c, payload, FIELDS, j);
  }

  /** Columns no block names (the id, the user id and the timestamps) are never changed. */
  lemma UnlistedColumnsKept(before: Row, c: Cipher, payload: map<string, Json>, col: Column)
    requires col !in Dsts(FIELDS) && SettingsAfter(before, c, payload).Some?
    ensures col in SettingsAfter(before, c, payload).value <==> col in before
    ensures col in before ==> SettingsAfter(before, c, payload).value[col] == before[col]
  {
    UpdatesUnlisted(c, payload, FIELDS, col);
    AssignUnpassed(before, UpdateData(c, payload).value, col);
  }

  /** A section missing from the request leaves its columns as they were. */
  lemma AbsentSectionKept(before: Row, c: Cipher, payload: map<string, Json>, j: int)
    requires 0 <= j < |FIELDS| && SettingsAfter(before, c, payload).Some?
    requires SectionName(FIELDS[j].0) !in payload
    ensures FIELDS[j].1.dst in SettingsAfter(before, c, payload).value <==> FIELDS[j].1.dst in before
    ensures FIELDS[j].1.dst in before ==> SettingsAfter(before, c, payload).value[FIELDS[j].1.dst] == before[FIELDS[j].1.dst]
  {
    BlockValues(c, payload, j);
    AssignUnpassed(before, UpdateData(c, payload).value, FIELDS[j].1.dst);
  }

  /** An API key sent back in its masked form leaves the stored key as it was. */
  lemma MaskedKeyKept(before: Row, c: Cipher, payload: map<string, Json>, j: int, m: map<string, Json>)
    requires 0 <= j < |FIELDS| && FIELDS[j].1.ApiKey? && SettingsAfter(before, c, payload).Some?
    requires SectionName(FIELDS[j].0) in payload && payload[SectionName(FIELDS[j].0)] == JObject(m)
    requires Src(FIELDS[j].1) in m && m[Src(FIELDS[j].1)].JStr? && IsMaskedKey(m[Src(FIELDS[j].1)].s)
    ensures FIELDS[j].1.dst in SettingsAfter(before, c, payload).value <==> FIELDS[j].1.dst in before
    ensures FIELDS[j].1.dst in before ==> SettingsAfter(before, c, payload).value[FIELDS[j].1.dst] == before[FIELDS[j].1.dst]
  {
    BlockValues(c, payload, j);
    FieldOnDictionary(c, m, FIELDS[j].1);
    AssignUnpassed(before, UpdateData(c, payload).value, FIELDS[j].1.dst);
  }

  /** An API key sent as an empty string (or any falsy value) clears the stored key. */
  lemma EmptyKeyCleared(before: Row, c: Cipher, payload: map<string, Json>, j: int, m: map<string, Json>)
    requires 0 <= j < |FIELDS| && FIELDS[j].1.ApiKey? && SettingsAfter(before, c, payload).Some?
    requires SectionName(FIELDS[j].0) in payload && payload[SectionName(FIELDS[j].0)] == JObject(m)
    requires Src(FIELDS[j].1) in m && !Truthy(m[Src(FIELDS[j].1)])
    ensures FIELDS[j].1.dst in SettingsAfter(before, c, payload).value
    ensures SettingsAfter(before, c, payload).value[FIELDS[j].1.dst] == JNull
  {
    var f := FIELDS[j].1;
    BlockValues(c, payload, j);
    FieldOnDictionary(c, m, f);
    SingleKeyValues([(Name(f.dst), JNull)], Name(f.dst));
    AssignPassedOnce(before, UpdateData(c, payload).value, f.dst, JNull);
  }

  /** A new API key is stored as its ciphertext (or cleared when encryption fails). */
  lemma NewKeyEncrypted(before: Row, c: Cipher, payload: map<string, Json>, j: int, m: map<string, Json>)
    requires 0 <= j < |FIELDS| && FIELDS[j].1.ApiKey? && SettingsAfter(before, c, payload).Some?
    requires SectionName(FIELDS[j].0) in payload && payload[SectionName(FIELDS[j].0)] == JObject(m)
    requires Src(FIELDS[j].1) in m && m[Src(FIELDS[j].1)].JStr?
    requires m[Src(FIELDS[j].1)].s != "" && !IsMaskedKey(m[Src(FIELDS[j].1)].s)
    ensures FIELDS[j].1.dst in SettingsAfter(before, c, payload).value
    ensures SettingsAfter(before, c, payload).value[FIELDS[j].1.dst]
      == match c.encrypt(m[Src(FIELDS[j].1)].s) case Some(token) => JStr(token) case None => JNull
  {
    var f := FIELDS[j].1;
    BlockValues(c, payload, j);
    FieldOnDictionary(c, m, f);
    SingleKeyValues([(Name(f.dst), EncodeJson(c, m[Src(f)]))], Name(f.dst));
    AssignPassedOnce(before, UpdateData(c, payload).value, f.dst, EncodeJson(c, m[Src(f)]));
  }

  /** Any other field present in its section is stored as sent, under its column's name. */
  lemma PlainFieldStored(before: Row, c: Cipher, payload: map<string, Json>, j: int, m: map<string, Json>)
    requires 0 <= j < |FIELDS| && !FIELDS[j].1.ApiKey? && SettingsAfter(before, c, payload).Some?
    requires SectionName(FIELDS[j].0) in payload && payload[SectionName(FIELDS[j].0)] == JObject(m)
    requires Src(FIELDS[j].1) in m
    ensures FIELDS[j].1.dst in SettingsAfter(before, c, payload).value
    ensures SettingsAfter(before, c, payload).value[FIELDS[j].1.dst] == m[Src(FIELDS[j].1)]
  {
    var f := FIELDS[j].1;
    BlockValues(c, payload, j);
    FieldOnDictionary(c, m, f);
    SingleKeyValues([(Name(f.dst), m[Src(f)])], Name(f.dst));
    AssignPassedOnce(before, UpdateData(c, payload).value, f.dst, m[Src(f)]);
  }

  /** `PUT /settings` for the default user: builds `update_data`, and when that succeeds
      hands it to the repository. */
  method PutSettings(store: SettingsStore, c: Cipher, payload: map<string, Json>) returns (updated: Option<Row>)
    modifies store
    ensures updated == SettingsAfter(
      if "default" in old(store.rows) then old(store.rows)["default"] else Defaults("default"), c, payload)
    ensures updated.None? ==> store.rows == old(store.rows)
    ensures updated.Some? ==> store.rows == old(store.rows)["default" := updated.value]
  {
    var data := UpdateData(c, payload);
    if data.None? {
      return None;
    }
    var row := store.UpdateSettings("default", data.value);
    updated := Some(row);
  }

  /** The keyword arguments of at most one entry, all under key `k`, read back under `k`. */
  lemma SingleKeyValues(a: Kwargs, k: string)
    requires |a| <= 1 && forall e :: e in a ==> e.0 == k
    ensures ValuesFor(a, k) == if a == [] then [] else [a[0].1]
  {
    if a != [] {
      assert a[0] in a;
      assert a[..0] == [];
    }
  }

  /** Entries under key `k0` contribute nothing to another key. */
  lemma OtherKeyValues(a: Kwargs, k0: string, k: string)
    requires |a| <= 1 && forall e :: e in a ==> e.0 == k0
    requires k0 != k
    ensures ValuesFor(a, k) == []
  {
    if a != [] {
      assert a[0] in a;
      assert a[..0] == [];
    }
  }
}
