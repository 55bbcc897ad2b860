/** The home screen's single-player form and the stored single-player
    configuration it shares with the single-player page. Storage is a map from
    keys to what parsing the stored text yields. */
module Home {
  import opened Types
  import opened Strings

  const ConfigKey: string := "cfa_single_config_v1"
  const DefaultNickname: string := "player"
  const DefaultDurationSec: int := 45
  const NicknameMaxLength: nat := 16

  /** The three durations the form offers. */
  predicate IsDuration(d: int) { d == 30 || d == 45 || d == 60 }

  datatype SingleConfig = SingleConfig(nickname: string, durationSec: int)

  const Defaults: SingleConfig := SingleConfig(DefaultNickname, DefaultDurationSec)

  /** The `nickname` property of the parsed object: falsy (missing, null, "", 0,
      false), a non-empty string, or a truthy value without a `slice` method (a
      number, `true`, a plain object), on which the call throws. A stored array,
      whose own `slice` succeeds, is not part of this model. */
  datatype NicknameField = NoNickname | NicknameText(text: string) | NicknameOther

  /** What the stored text under the key is: empty, text that `JSON.parse` rejects
      or whose properties cannot be read (such as `null`), or an object. The
      duration is Some only when the property is a number. */
  datatype StoredConfig =
    | EmptyText
    | Unparseable
    | Parsed(nickname: NicknameField, durationSec: Option<int>)

  type Storage = map<string, StoredConfig>

  /** The configurations that loading can produce. */
  predicate ValidConfig(c: SingleConfig) {
    1 <= |c.nickname| <= NicknameMaxLength && IsDuration(c.durationSec)
  }

  /** `loadConfig`: the defaults when nothing usable is stored; otherwise the stored
      nickname (or "player" when it is falsy) cut to 16 characters, and the stored
      duration when it is 30, 45 or 60, else 45. */
  function LoadConfig(storage: Storage): (c: SingleConfig)
    ensures ValidConfig(c)
    ensures ConfigKey !in storage || storage[ConfigKey].EmptyText? || storage[ConfigKey].Unparseable?
            ==> c == Defaults
    ensures ConfigKey in storage && storage[ConfigKey].Parsed? && storage[ConfigKey].nickname.NicknameOther?
            ==> c == Defaults
    ensures ConfigKey in storage && storage[ConfigKey].Parsed? && storage[ConfigKey].nickname.NoNickname?
            ==> c.nickname == DefaultNickname
    ensures ConfigKey in storage && storage[ConfigKey].Parsed? && storage[ConfigKey].nickname.NicknameText?
            ==> var t := storage[ConfigKey].nickname.text;
                c.nickname == SliceHead(if t == [] then DefaultNickname else t, NicknameMaxLength)
    ensures ConfigKey in storage && storage[ConfigKey].Parsed? && !storage[ConfigKey].nickname.NicknameOther?
            ==> var d := storage[ConfigKey].durationSec;
                (d.Some? && IsDuration(d.value) ==> c.durationSec == d.value)
                && (d.None? || !IsDuration(d.value) ==> c.durationSec == DefaultDurationSec)
  {
    if ConfigKey !in storage then Defaults
    else
      match storage[ConfigKey]
      case EmptyText => Defaults
      case Unparseable => Defaults
      case Parsed(nick, dur) =>
        match nick
        case NicknameOther => Defaults
        case NoNickname => SingleConfig(DefaultNickname, NormalDuration(dur))
        case NicknameText(text) =>
          var name := if text == [] then DefaultNickname else text;
          SingleConfig(SliceHead(name, NicknameMaxLength), NormalDuration(dur))
  }

  /** `[30, 45, 60].includes(d) ? d : 45`. */
  function NormalDuration(d: Option<int>): (r: int)
    ensures IsDuration(r)
    ensures d.Some? && IsDuration(d.value) ==> r == d.value
    ensures d.None? || !IsDuration(d.value) ==> r == DefaultDurationSec
  {
    if d.Some? && IsDuration(d.value) then d.value else DefaultDurationSec
  }

  /** `saveConfig`: the configuration is written, as a parsed object, under the key;
      every other key is left alone. */
  function SaveConfig(storage: Storage, c: SingleConfig): (s: Storage)
    ensures ConfigKey in s && s.Keys == storage.Keys + {ConfigKey}
    ensures forall k :: k in storage && k != ConfigKey ==> k in s && s[k] == storage[k]
  {
    storage[ConfigKey := Parsed(if c.nickname == [] then NoNickname else NicknameText(c.nickname),
                                Some(c.durationSec))]
  }

  /** Loading gives back exactly the configuration saved, for every configuration
      loading can produce, and only for those. */
  lemma {:induction false} SaveLoadRoundTrip(storage: Storage, c: SingleConfig)
    ensures LoadConfig(SaveConfig(storage, c)) == c <==> ValidConfig(c)
  {
    if ValidConfig(c) {
      var s := SaveConfig(storage, c);
      assert s[ConfigKey] == Parsed(NicknameText(c.nickname), Some(c.durationSec));
      assert SliceHead(c.nickname, NicknameMaxLength) == c.nickname;
    }
  }

  /** Saving what was loaded changes nothing that a later load sees. */
  lemma {:induction false} LoadSaveStable(storage: Storage, other: Storage)
    ensures LoadConfig(SaveConfig(other, LoadConfig(storage))) == LoadConfig(storage)
  {
    SaveLoadRoundTrip(other, LoadConfig(storage));
  }

  /** `canStart`: a nickname of at least two characters after trimming, and a
      connected wallet. */
  predicate CanStart(nickname: string, isConnected: bool) {
    |Trim(nickname)| >= 2 && isConnected
  }

  /** A nickname of white space only never enables the start button. */
  lemma {:induction false} BlankNicknameCannotStart(nickname: string, isConnected: bool)
    requires forall i :: 0 <= i < |nickname| ==> IsSpace(nickname[i])
    ensures !CanStart(nickname, isConnected)
  {
    TrimBlank(nickname);
  }

  /** The single-player form on the home screen. */
  class HomeForm {
    var nickname: string
    var durationSec: int

    /** The input holds at most 16 characters and the duration is one of the three
        buttons' values. */
    ghost predicate Valid()
      reads this
    {
      |nickname| <= NicknameMaxLength && IsDuration(durationSec)
    }

    /** The form starts from the stored configuration. */
    constructor (storage: Storage)
      ensures Valid()
      ensures nickname == LoadConfig(storage).nickname && durationSec == LoadConfig(storage).durationSec
    {
      var c := LoadConfig(storage);
      nickname := c.nickname;
      durationSec := c.durationSec;
    }

    /** Typing in the nickname input; the input accepts at most 16 characters. */
    method SetNickname(n: string)
      requires Valid() && |n| <= NicknameMaxLength
      modifies this`nickname
      ensures Valid() && nickname == n
    {
      nickname := n;
    }

    /** One of the 30/45/60 buttons. */
    method SetDuration(d: int)
      requires Valid() && IsDuration(d)
      modifies this`durationSec
      ensures Valid() && durationSec == d
    {
      durationSec := d;
    }

    /** `startSingle`, reachable only through the enabled start button: stores the
        trimmed nickname with the chosen duration and returns the new storage,
        from which the single-player page loads exactly that configuration. */
    method StartSingle(storage: Storage, isConnected: bool) returns (saved: Storage)
      requires Valid() && CanStart(nickname, isConnected)
      ensures saved == SaveConfig(storage, SingleConfig(Trim(nickname), durationSec))
      ensures LoadConfig(saved) == SingleConfig(Trim(nickname), durationSec)
    {
      var cfg := SingleConfig(Trim(nickname), durationSec);
      saved := SaveConfig(storage, cfg);
      SaveLoadRoundTrip(storage, cfg);
    }
  }
}
