/**
 * The browser-side copy of the signed-in user: one localStorage entry, under one key, holding
 * the user serialized as JSON text.
 */
module UserStore {
  import opened Wrappers
  import opened Text

  const UserKey := "apex_novel_user"

  datatype User = User(id: string, username: string, email: string, role: string, coinBalance: Option<int>)

  // ---------------------------------------------------------------------------------------
  // JSON text of a user
  // ---------------------------------------------------------------------------------------

  function HexLower(d: nat): char
    requires d < 16
  {
    if d < 10 then DigitChar(d) else (('a' as int) + d - 10) as char
  }

  /** How `JSON.stringify` writes one character inside a string literal. */
  function EscapeChar(c: char): (e: string)
    ensures |e| >= 1
  {
    var n := c as int;
    if c == '"' then "\\\""
    else if c == '\\' then "\\\\"
    else if n == 8 then "\\b"
    else if n == 12 then "\\f"
    else if n == 10 then "\\n"
    else if n == 13 then "\\r"
    else if n == 9 then "\\t"
    else if n < 0x20 then "\\u00" + [HexLower(n / 16), HexLower(n % 16)]
    else [c]
  }

  function Escape(s: string): string {
    if |s| == 0 then "" else EscapeChar(s[0]) + Escape(s[1..])
  }

  function Quote(s: string): string {
    "\"" + Escape(s) + "\""
  }

  const BalanceKey := ",\"coinBalance\":"

  /** The balance member, when there is a balance, and the closing brace. */
  function BalanceText(balance: Option<int>): string {
    (if balance.Some? then BalanceKey + IntToString(balance.value) else "") + "}"
  }

  /** `JSON.stringify(user)`: the fields in declaration order, an absent balance left out. */
  function EncodeUser(u: User): (text: string)
    ensures text != ""
  {
    "{\"id\":" + (Quote(u.id) + (",\"username\":" + (Quote(u.username) + (",\"email\":" + (Quote(u.email)
    + (",\"role\":" + (Quote(u.role) + BalanceText(u.coinBalance))))))))
  }

  function HexValue(c: char): Option<nat> {
    if '0' <= c <= '9' then Some(c as int - '0' as int)
    else if 'a' <= c <= 'f' then Some(c as int - 'a' as int + 10)
    else if 'A' <= c <= 'F' then Some(c as int - 'A' as int + 10)
    else None
  }

  /** The character of an escape sequence (the text after the backslash) and its length. */
  function Unescape(t: string): Option<(char, nat)>
    requires |t| > 0
  {
    var c := t[0];
    if c == '"' || c == '\\' || c == '/' then Some((c, 1))
    else if c == 'b' then Some((8 as char, 1))
    else if c == 'f' then Some((12 as char, 1))
    else if c == 'n' then Some((10 as char, 1))
    else if c == 'r' then Some((13 as char, 1))
    else if c == 't' then Some((9 as char, 1))
    else if c == 'u' && |t| >= 5 && HexValue(t[1]).Some? && HexValue(t[2]).Some?
      && HexValue(t[3]).Some? && HexValue(t[4]).Some? then
      var v := ((HexValue(t[1]).value * 16 + HexValue(t[2]).value) * 16 + HexValue(t[3]).value) * 16
        + HexValue(t[4]).value;
      if 0xD800 <= v < 0xE000 then None else Some((v as char, 5))
    else None
  }

  /**
   * The body of a JSON string literal up to its closing quote: the decoded text and what
   * follows the quote; `None` for an unterminated literal, a raw control character or a bad
   * escape.
   */
  function ReadString(s: string): Option<(string, string)>
    decreases |s|
  {
    if |s| == 0 then None
    else if s[0] == '"' then Some(("", s[1..]))
    else if s[0] == '\\' then
      if |s| < 2 then None
      else match Unescape(s[1..])
        case None => None
        case Some((c, k)) =>
          match ReadString(s[1 + k..])
          case None => None
          case Some((t, rest)) => Some(([c] + t, rest))
    else if (s[0] as int) < 0x20 then None
    else
      match ReadString(s[1..])
      case None => None
      case Some((t, rest)) => Some(([s[0]] + t, rest))
  }

  /** A string-valued member: the key text (through the opening quote), then the literal. */
  function ReadMember(s: string, key: string): Option<(string, string)> {
    if StartsWith(s, key) then ReadString(s[|key|..]) else None
  }


  /** The balance member and the closing brace, or the brace alone. */
  function ReadBalance(rest: string): Option<Option<int>> {
    if rest == "}" then Some(None)
    else if StartsWith(rest, BalanceKey) && EndsWith(rest, "}") && |rest| > |BalanceKey| then
      var digits := rest[|BalanceKey|..|rest| - 1];
      if digits != "" && digits[0] == '+' then None
      else match ParseInt(digits)
        case None => None
        case Some(n) => Some(Some(n))
    else None
  }

  /** `JSON.parse` of the stored text, for the text `setUser` writes; anything else is `None`. */
  function DecodeUser(s: string): Option<User> {
    match ReadMember(s, "{\"id\":\"")
    case None => None
    case Some((id, r1)) =>
      match ReadMember(r1, ",\"username\":\"")
      case None => None
      case Some((username, r2)) =>
        match ReadMember(r2, ",\"email\":\"")
        case None => None
        case Some((email, r3)) =>
          match ReadMember(r3, ",\"role\":\"")
          case None => None
          case Some((role, r4)) =>
            match ReadBalance(r4)
            case None => None
            case Some(balance) => Some(User(id, username, email, role, balance))
  }

  lemma HexLowerValue(d: nat)
    requires d < 16
    ensures HexValue(HexLower(d)) == Some(d)
  {
  }

  /** Reading an escaped character gives it back and continues after its escape. */
  lemma ReadStringStep(c: char, tail: string)
    ensures ReadString(EscapeChar(c) + tail) ==
      match ReadString(tail)
      case None => None
      case Some((t, rest)) => Some(([c] + t, rest))
  {
    var e := EscapeChar(c);
    var s := e + tail;
    var n := c as int;
    if |e| == 1 {
      assert s[0] == c && s[1..] == tail;
    } else if |e| == 2 {
      assert s[0] == '\\' && s[1..] == e[1..] + tail;
      assert s[1 + 1..] == tail;
    } else {
      HexLowerValue(n / 16);
      HexLowerValue(n % 16);
      assert s[0] == '\\' && s[1..] == e[1..] + tail;
      assert s[1] == 'u' && s[2] == '0' && s[3] == '0';
      assert s[1 + 5..] == tail;
    }
  }

  /** A quoted string reads back as itself, followed by whatever came after it. */
  lemma {:induction false} ReadEscaped(x: string, rest: string)
    ensures ReadString(Escape(x) + "\"" + rest) == Some((x, rest))
  {
    if |x| == 0 {
      assert Escape(x) + "\"" + rest == "\"" + rest;
      assert ("\"" + rest)[1..] == rest;
    } else {
      var tail := Escape(x[1..]) + "\"" + rest;
      assert Escape(x) + "\"" + rest == EscapeChar(x[0]) + tail;
      ReadStringStep(x[0], tail);
      ReadEscaped(x[1..], rest);
      assert [x[0]] + x[1..] == x;
    }
  }

  lemma ReadQuotedMember(prefix: string, x: string, rest: string)
    ensures ReadMember(prefix + (Quote(x) + rest), prefix + "\"") == Some((x, rest))
  {
    var key := prefix + "\"";
    var s := prefix + (Quote(x) + rest);
    assert s == key + (Escape(x) + "\"" + rest);
    assert s[|key|..] == Escape(x) + "\"" + rest;
    ReadEscaped(x, rest);
  }

  lemma ReadBalanceOf(balance: Option<int>)
    ensures ReadBalance(BalanceText(balance)) == Some(balance)
  {
    if balance.Some? {
      var d := IntToString(balance.value);
      var rest := BalanceKey + d + "}";
      assert rest[|BalanceKey|..|rest| - 1] == d;
      ParseIntRoundTrip(balance.value);
      assert d[0] == '-' || IsDigit(d[0]) by {
        var m := NatToString(if balance.value < 0 then -balance.value else balance.value);
        assert IsDigit(m[0]);
      }
    } else {
      assert "" + "}" == "}";
    }
  }

  /** Whatever `setUser` writes, `getUser` reads back as the same user. */
  lemma DecodeEncodeUser(u: User)
    ensures DecodeUser(EncodeUser(u)) == Some(u)
  {
    var r4 := BalanceText(u.coinBalance);
    var r3 := ",\"role\":" + (Quote(u.role) + r4);
    var r2 := ",\"email\":" + (Quote(u.email) + r3);
    var r1 := ",\"username\":" + (Quote(u.username) + r2);
    ReadQuotedMember("{\"id\":", u.id, r1);
    ReadQuotedMember(",\"username\":", u.username, r2);
    ReadQuotedMember(",\"email\":", u.email, r3);
    ReadQuotedMember(",\"role\":", u.role, r4);
    ReadBalanceOf(u.coinBalance);
    assert "{\"id\":" + "\"" == "{\"id\":\"";
    assert ",\"username\":" + "\"" == ",\"username\":\"";
    assert ",\"email\":" + "\"" == ",\"email\":\"";
    assert ",\"role\":" + "\"" == ",\"role\":\"";
  }

  /** `getUser` on the state of the store: a present, non-empty, well-formed entry under the key. */
  function StoredUser(hasWindow: bool, entries: map<string, string>): Option<User> {
    if hasWindow && UserKey in entries && entries[UserKey] != "" then DecodeUser(entries[UserKey]) else None
  }

  /** After `setUser(u)` with a window, `getUser()` returns `u`. */
  lemma StoredAfterSet(entries: map<string, string>, u: User)
    ensures StoredUser(true, entries[UserKey := EncodeUser(u)]) == Some(u)
  {
    DecodeEncodeUser(u);
  }

  /** After `removeUser()`, or without a window, `getUser()` returns null. */
  lemma StoredAfterRemove(entries: map<string, string>)
    ensures StoredUser(true, entries - {UserKey}) == None
    ensures StoredUser(false, entries) == None
  {
  }

  // ---------------------------------------------------------------------------------------
  // The storage entry
  // ---------------------------------------------------------------------------------------

  /** The localStorage of the page, and whether there is a window at all (not on the server). */
  class Storage {
    const hasWindow: bool
    var entries: map<string, string>

    constructor(hasWindow: bool, entries: map<string, string>)
      ensures this.hasWindow == hasWindow && this.entries == entries
    {
      this.hasWindow := hasWindow;
      this.entries := entries;
    }

    function Stored(): Option<User>
      reads this
    {
      StoredUser(hasWindow, entries)
    }

    /** `setUser`: writes the user's JSON text under the key, and only there. */
    method SetUser(u: User)
      modifies this
      ensures entries == if hasWindow then old(entries)[UserKey := EncodeUser(u)] else old(entries)
      ensures hasWindow ==> Stored() == Some(u)
    {
      if hasWindow {
        entries := entries[UserKey := EncodeUser(u)];
        StoredAfterSet(old(entries), u);
      }
    }

    /** `getUser` */
    method GetUser() returns (u: Option<User>)
      ensures u == Stored()
    {
      u := None;
      if hasWindow {
        if UserKey in entries && entries[UserKey] != "" {
          u := DecodeUser(entries[UserKey]);
        }
      }
    }

    /** `removeUser`: drops the key, and only the key. */
    method RemoveUser()
      modifies this
      ensures entries == if hasWindow then old(entries) - {UserKey} else old(entries)
      ensures Stored() == None
    {
      if hasWindow {
        entries := entries - {UserKey};
      }
    }

    /** `clearAuth` is `removeUser`. */
    method ClearAuth()
      modifies this
      ensures entries == if hasWindow then old(entries) - {UserKey} else old(entries)
      ensures Stored() == None
    {
      RemoveUser();
    }
  }
}
