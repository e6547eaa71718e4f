/** The user-settings repository: API keys stored encrypted and shown masked, the
    default settings row created on first access, and attribute-wise updates. */
module SettingsRepo {
  import opened Common

  // ---------------------------------------------------------------- encryption

  /** The process's Fernet cipher; each function gives `None` where Fernet raises. */
  datatype Cipher = Cipher(encrypt: string -> Option<string>, decrypt: string -> Option<string>)

  /** Fernet's own guarantee: a token is non-empty and decrypts to its plaintext. */
  ghost predicate RoundTrips(c: Cipher)
  {
    forall p :: c.encrypt(p).Some? ==> |c.encrypt(p).value| > 0 && c.decrypt(c.encrypt(p).value) == Some(p)
  }

  /** `_encrypt`: nothing for an empty value or a failing cipher. */
  function Encrypt(c: Cipher, value: string): (r: Option<string>)
    ensures value == "" ==> r.None?
    ensures value != "" ==> r == c.encrypt(value)
  {
    if value == "" then None else c.encrypt(value)
  }

  /** `_decrypt`: nothing for an empty value or a failing cipher. */
  function Decrypt(c: Cipher, value: string): (r: Option<string>)
    ensures value == "" ==> r.None?
    ensures value != "" ==> r == c.decrypt(value)
  {
    if value == "" then None else c.decrypt(value)
  }

  // ---------------------------------------------------------------- masking

  const BULLET: char := '•'

  function Bullets(n: nat): (r: string)
    ensures |r| == n && forall i :: 0 <= i < n ==> r[i] == BULLET
  {
    if n == 0 then [] else Bullets(n - 1) + [BULLET]
  }

  /** The masked form of a plaintext key: "****" when it is shorter than four characters,
      otherwise one bullet per character but the last four, which are shown. */
  function Mask(plain: string): (r: string)
    ensures |plain| < 4 ==> r == "****"
    ensures |plain| >= 4 ==> |r| == |plain|
    ensures |plain| >= 4 ==> r[|r| - 4..] == plain[|plain| - 4..]
    ensures |plain| >= 4 ==> forall i :: 0 <= i < |r| - 4 ==> r[i] == BULLET
  {
    if |plain| < 4 then "****" else Bullets(|plain| - 4) + plain[|plain| - 4..]
  }

  /** `_mask_key` of a stored column value: nothing for an empty or missing value, or for
      one that does not decrypt to a non-empty plaintext. */
  function MaskKey(c: Cipher, stored: Option<string>): (r: Option<string>)
    ensures r.Some? <==> TruthyStr(stored) && Decrypt(c, stored.value).Some? && Decrypt(c, stored.value).value != ""
    ensures r.Some? ==> r == Some(Mask(Decrypt(c, stored.value).value))
  {
    if !TruthyStr(stored) then None
    else match Decrypt(c, stored.value)
      case None => None
      case Some(plain) => if plain == "" then None else Some(Mask(plain))
  }

  /** `_is_masked_key`: a non-empty key that starts with a bullet or is "****". */
  predicate IsMaskedKey(key: string)
  {
    key != "" && (StartsWith(key, [BULLET]) || key == "****")
  }

  /** A masked value is recognised as masked, except that a four-character key masks to
      itself and so counts as masked only when it already looks masked. */
  lemma MaskRecognised(plain: string)
    ensures IsMaskedKey(Mask(plain)) <==> |plain| != 4 || IsMaskedKey(plain)
  {
    if |plain| > 4 {
      LongMaskStartsWithBullet(plain);
    } else if |plain| == 4 {
      FourCharacterMask(plain);
    }
  }

  lemma LongMaskStartsWithBullet(plain: string)
    requires |plain| > 4
    ensures StartsWith(Mask(plain), [BULLET])
  {
    var r := Mask(plain);
    assert r[0] == BULLET;
    assert r[..1] == [r[0]];
  }

  lemma FourCharacterMask(plain: string)
    requires |plain| == 4
    ensures Mask(plain) == plain
  {
    var r := Mask(plain);
    assert r == r[|r| - 4..];
    assert plain == plain[|plain| - 4..];
  }

  /** `encode_api_key`: the ciphertext of a new key; nothing for an empty or masked one. */
  function EncodeApiKey(c: Cipher, key: string): (r: Option<string>)
    ensures key == "" || IsMaskedKey(key) ==> r.None?
    ensures key != "" && !IsMaskedKey(key) ==> r == c.encrypt(key)
  {
    if key == "" || IsMaskedKey(key) then None else Encrypt(c, key)
  }

  /** A key stored through `encode_api_key` is shown as the mask of that same key. */
  lemma EncodeThenMask(c: Cipher, key: string)
    requires RoundTrips(c)
    requires key != "" && !IsMaskedKey(key) && c.encrypt(key).Some?
    ensures MaskKey(c, EncodeApiKey(c, key)) == Some(Mask(key))
  {
    var token := c.encrypt(key).value;
    assert |token| > 0 && c.decrypt(token) == Some(key);
  }

  // ---------------------------------------------------------------- the settings table

  /** The columns of `UserSettings`. */
  datatype Column =
    | Id | UserId | DataRefreshInterval | ActiveProviders
    | AlpacaApiKey | AlpacaSecretKey | AlphaVantageApiKey | PolygonApiKey | CoinbaseApiKey | CoinbaseApiSecret
    | PaperTrading | EnableAutoTrading | MaxPositionSize | MaxDailyLoss | StopLossPct
    | AgentWeights | AnalysisCadence | Theme | LayoutDensity | ShowNewsTicker
    | CreatedAt | UpdatedAt

  /** The attribute name of a column. */
  function Name(c: Column): string
  {
    match c
    case Id => "id"
    case UserId => "user_id"
    case DataRefreshInterval => "data_refresh_interval"
    case ActiveProviders => "active_providers"
    case AlpacaApiKey => "alpaca_api_key"
    case AlpacaSecretKey => "alpaca_secret_key"
    case AlphaVantageApiKey => "alpha_vantage_api_key"
    case PolygonApiKey => "polygon_api_key"
    case CoinbaseApiKey => "coinbase_api_key"
    case CoinbaseApiSecret => "coinbase_api_secret"
    case PaperTrading => "paper_trading"
    case EnableAutoTrading => "enable_auto_trading"
    case MaxPositionSize => "max_position_size"
    case MaxDailyLoss => "max_daily_loss"
    case StopLossPct => "stop_loss_pct"
    case AgentWeights => "agent_weights"
    case AnalysisCadence => "analysis_cadence"
    case Theme => "theme"
    case LayoutDensity => "layout_density"
    case ShowNewsTicker => "show_news_ticker"
    case CreatedAt => "created_at"
    case UpdatedAt => "updated_at"
  }

  /** The only column whose name could be `key`, told apart by the name's length and its
      first letters. */
  function Candidate(key: string): Option<Column>
  {
    match |key|
    case 2 => Some(Id)
    case 5 => Some(Theme)
    case 7 => Some(UserId)
    case 10 => if key[0] == 'c' then Some(CreatedAt) else Some(UpdatedAt)
    case 13 =>
      if key[0] == 'p' then Some(PaperTrading)
      else if key[0] == 's' then Some(StopLossPct)
      else Some(AgentWeights)
    case 14 =>
      if key[0] == 'a' then Some(AlpacaApiKey)
      else if key[0] == 'm' then Some(MaxDailyLoss)
      else Some(LayoutDensity)
    case 15 => Some(PolygonApiKey)
    case 16 =>
      if key[0] == 'c' then Some(CoinbaseApiKey)
      else if key[0] == 's' then Some(ShowNewsTicker)
      else if key[1] == 'c' then Some(ActiveProviders)
      else Some(AnalysisCadence)
    case 17 => if key[0] == 'a' then Some(AlpacaSecretKey) else Some(MaxPositionSize)
    case 19 => if key[0] == 'c' then Some(CoinbaseApiSecret) else Some(EnableAutoTrading)
    case 21 => if key[0] == 'd' then Some(DataRefreshInterval) else Some(AlphaVantageApiKey)
    case _ => None
  }

  /** `hasattr(settings, key)`: the column a keyword names, if any. */
  function ColumnNamed(key: string): (r: Option<Column>)
    ensures r.Some? ==> Name(r.value) == key
  {
    match Candidate(key)
    case Some(c) => if Name(c) == key then Some(c) else None
    case None => None
  }

  /** Every column's name looks up that column. */
  lemma NameRoundTrip(c: Column)
    ensures ColumnNamed(Name(c)) == Some(c)
  {
    assert Candidate(Name(c)) == Some(c);
  }

  /** No two columns share a name, so a keyword names at most one column. */
  lemma NameDeterminesColumn(k: string, c: Column)
    requires ColumnNamed(k) == Some(c)
    ensures forall d :: Name(d) == k ==> d == c
  {
    forall d | Name(d) == k ensures d == c {
      NameRoundTrip(d);
    }
  }

  /** A keyword `hasattr` rejects names no column at all. */
  lemma Unnamed(key: string)
    requires ColumnNamed(key).None?
    ensures forall c: Column :: Name(c) != key
  {
    forall c ensures Name(c) != key {
      NameRoundTrip(c);
    }
  }

  /** A `UserSettings` row. */
  type Row = map<Column, Json>

  predicate IsKeyColumn(c: Column)
  {
    c in {AlpacaApiKey, AlpacaSecretKey, AlphaVantageApiKey, PolygonApiKey, CoinbaseApiKey, CoinbaseApiSecret}
  }

  /** The value `get_or_create_settings` gives a column, or the column's own default for
      the ones it leaves out (no keys, auto-trading off). */
  function DefaultValue(user: string, c: Column): Json
  {
    match c
    case UserId => JStr(user)
    case DataRefreshInterval => JNum(10.0)
    case ActiveProviders => JList([JStr("demo")])
    case PaperTrading => JBool(true)
    case EnableAutoTrading => JBool(false)
    case MaxPositionSize => JNum(0.1)
    case MaxDailyLoss => JNum(0.05)
    case StopLossPct => JNum(0.02)
    case AgentWeights =>
      JObject(map["technical" := JNum(1.0), "news" := JNum(1.0), "fundamental" := JNum(1.0), "risk" := JNum(1.5)])
    case AnalysisCadence => JNum(60.0)
    case Theme => JStr("dark")
    case LayoutDensity => JStr("comfortable")
    case ShowNewsTicker => JBool(true)
    case _ => JNull
  }

  /** The row inserted for a new user: every column but the id and the timestamps. */
  function Defaults(user: string): (r: Row)
    ensures forall c :: c in r <==> c != Id && c != CreatedAt && c != UpdatedAt
    ensures forall c :: IsKeyColumn(c) ==> r[c] == JNull
    ensures r[UserId] == JStr(user) && r[PaperTrading] == JBool(true) && r[EnableAutoTrading] == JBool(false)
  {
    map c | c != Id && c != CreatedAt && c != UpdatedAt :: DefaultValue(user, c)
  }

  /** The `for key, value in kwargs.items(): if hasattr(...): setattr(...)` loop as a whole:
      every column named in `kwargs` takes its value, every other column is kept, and a
      keyword that names no column is ignored. */
  function Assign(row: Row, kwargs: map<string, Json>): (r: Row)
    ensures forall c :: Name(c) in kwargs ==> c in r && r[c] == kwargs[Name(c)]
    ensures forall c :: c in row && Name(c) !in kwargs ==> c in r && r[c] == row[c]
    ensures forall c :: c in r <==> c in row || Name(c) in kwargs
  {
    map c | c in row || Name(c) in kwargs :: if Name(c) in kwargs then kwargs[Name(c)] else row[c]
  }

  /** Keywords that name no attribute cannot change a row. */
  lemma AssignIgnoresUnknown(row: Row, kwargs: map<string, Json>)
    requires forall k :: k in kwargs ==> ColumnNamed(k).None?
    ensures Assign(row, kwargs) == row
  {
    forall k | k in kwargs {
      Unnamed(k);
    }
  }

  /** A column whose name was never passed keeps its value. */
  lemma AssignUnpassed(row: Row, items: Kwargs, col: Column)
    requires ValuesFor(items, Name(col)) == []
    ensures col in Assign(row, KwargsMap(items)) <==> col in row
    ensures col in row ==> Assign(row, KwargsMap(items))[col] == row[col]
  {
    KwargsMapValues(items, Name(col));
  }

  /** A column whose name was passed once takes that value. */
  lemma AssignPassedOnce(row: Row, items: Kwargs, col: Column, v: Json)
    requires ValuesFor(items, Name(col)) == [v]
    ensures col in Assign(row, KwargsMap(items)) && Assign(row, KwargsMap(items))[col] == v
  {
    KwargsMapValues(items, Name(col));
  }

  /** `if hasattr(settings, key): setattr(settings, key, value)` for one keyword. */
  function SetAttr(row: Row, key: string, value: Json): (r: Row)
    ensures ColumnNamed(key).None? ==> r == row
    ensures ColumnNamed(key).Some? ==> r == row[ColumnNamed(key).value := value]
  {
    match ColumnNamed(key)
    case Some(c) => row[c := value]
    case None => row
  }

  /** The keyword arguments of a call, in the order they were passed. */
  type Kwargs = seq<(string, Json)>

  /** The dictionary the arguments make: a later keyword overrides an earlier one. */
  function KwargsMap(items: Kwargs): map<string, Json>
  {
    if items == [] then map[]
    else KwargsMap(items[..|items| - 1])[items[|items| - 1].0 := items[|items| - 1].1]
  }

  /** The values passed with keyword `k`, in order. */
  function ValuesFor(items: Kwargs, k: string): seq<Json>
  {
    if items == [] then []
    else
      var last := items[|items| - 1];
      ValuesFor(items[..|items| - 1], k) + (if last.0 == k then [last.1] else [])
  }

  lemma {:induction false} ValuesForAppend(a: Kwargs, b: Kwargs, k: string)
    ensures ValuesFor(a + b, k) == ValuesFor(a, k) + ValuesFor(b, k)
  {
    if b != [] {
      var ab := a + b;
      assert ab[..|ab| - 1] == a + b[..|b| - 1];
      ValuesForAppend(a, b[..|b| - 1], k);
    } else {
      assert a + b == a;
    }
  }

  /** A keyword is in the dictionary exactly when it was passed, with the last value it
      was passed with. */
  lemma {:induction false} KwargsMapValues(items: Kwargs, k: string)
    ensures k in KwargsMap(items) <==> ValuesFor(items, k) != []
    ensures ValuesFor(items, k) != [] ==> KwargsMap(items)[k] == ValuesFor(items, k)[|ValuesFor(items, k)| - 1]
  {
    if items != [] {
      KwargsMapValues(items[..|items| - 1], k);
    }
  }

  /** `setattr` for every keyword that names an attribute, in order. */
  function SetAll(row: Row, items: Kwargs): Row
  {
    if items == [] then row
    else
      var (k, v) := items[|items| - 1];
      SetAttr(SetAll(row, items[..|items| - 1]), k, v)
  }

  /** Setting one more attribute extends the assignment by that keyword. */
  lemma SetAttrAssign(row: Row, kwargs: map<string, Json>, k: string, v: Json)
    ensures SetAttr(Assign(row, kwargs), k, v) == Assign(row, kwargs[k := v])
  {
    match ColumnNamed(k) {
      case Some(c) =>
        NameDeterminesColumn(k, c);
      case None =>
        Unnamed(k);
    }
  }

  /** Setting the attributes one at a time assigns the dictionary of the arguments. */
  lemma {:induction false} SetAllAssigns(row: Row, items: Kwargs)
    ensures SetAll(row, items) == Assign(row, KwargsMap(items))
  {
    if items == [] {
      assert Assign(row, map[]) == row;
    } else {
      var (k, v) := items[|items| - 1];
      SetAllAssigns(row, items[..|items| - 1]);
      SetAttrAssign(row, KwargsMap(items[..|items| - 1]), k, v);
    }
  }

  /** The `setattr` loop of `update_settings`. */
  method SetAttributes(base: Row, kwargs: Kwargs) returns (row: Row)
    ensures row == SetAll(base, kwargs)
  {
    row := base;
    for i := 0 to |kwargs|
      invariant row == SetAll(base, kwargs[..i])
    {
      assert kwargs[..i + 1][..i] == kwargs[..i];
      row := SetAttr(row, kwargs[i].0, kwargs[i].1);
    }
    assert kwargs[..|kwargs|] == kwargs;
  }

  /** `user_settings`, one row per user id. */
  class SettingsStore {
    var rows: map<string, Row>

    constructor ()
      ensures rows == map[]
    {
      rows := map[];
    }

    /** `get_or_create_settings`: the user's row, inserting the defaults only when there is
        none; once the row exists the table no longer changes. */
    method GetOrCreate(user: string) returns (row: Row)
      modifies this
      ensures user in old(rows) ==> rows == old(rows) && row == old(rows)[user]
      ensures user !in old(rows) ==> rows == old(rows)[user := Defaults(user)] && row == Defaults(user)
      ensures user in rows && rows[user] == row
    {
      if user !in rows {
        rows := rows[user := Defaults(user)];
      }
      row := rows[user];
    }

    /** `update_settings`: assigns each keyword that names an attribute of the user's row,
        creating the row first when needed. */
    method UpdateSettings(user: string, kwargs: Kwargs) returns (row: Row)
      modifies this
      ensures user in old(rows) ==> row == Assign(old(rows)[user], KwargsMap(kwargs))
      ensures user !in old(rows) ==> row == Assign(Defaults(user), KwargsMap(kwargs))
      ensures rows == old(rows)[user := row]
    {
      var base := GetOrCreate(user);
      assert rows == old(rows)[user := base];
      row := SetAttributes(base, kwargs);
      SetAllAssigns(base, kwargs);
      rows := rows[user := row];
    }
  }
}
