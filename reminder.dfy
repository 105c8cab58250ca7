/**
 * The once-per-session reminder: when the user has challenges and no reminder
 * has been shown in this browser session, one of four messages is shown, in
 * rotation across sessions. The rotation position lives in the browser's
 * persistent storage as decimal text, read back with JavaScript's `parseInt`;
 * the "already shown" flag lives in the per-session storage.
 */
module Reminders {
  import opened Wrappers
  import StorageService

  /** The four messages, in the order they rotate. */
  const Messages: seq<string> := [
    "A small step every day makes big progress.",
    "Keep going, your future self will thank you.",
    "Remember to take care of yourself today.",
    "Don't forget to check today's challenge!"
  ]

  /** The persistent key holding the next message's position. */
  const ReminderIndexKey := "reminderIndex"
  /** The per-session key marking that a reminder was shown. */
  const ReminderShownKey := "reminderShown"

  // ---------------------------------------------------------------------------
  // Decimal text: `parseInt(text, 10)` and `n.toString()`

  /** The white space and line terminators `parseInt` skips before the number. */
  predicate IsWhiteSpace(c: char) {
    || c == '\t' || c == '\U{000B}' || c == '\U{000C}' || c == ' ' || c == '\U{00A0}' || c == '\U{FEFF}'
    || c == '\n' || c == '\r' || c == '\U{2028}' || c == '\U{2029}'
    || c == '\U{1680}' || ('\U{2000}' <= c <= '\U{200A}') || c == '\U{202F}' || c == '\U{205F}' || c == '\U{3000}'
  }

  predicate IsDigit(c: char) {
    '0' <= c <= '9'
  }

  function DigitValue(c: char): (d: nat)
    requires IsDigit(c)
    ensures d < 10
  {
    c as int - '0' as int
  }

  function Digit(d: nat): (c: char)
    requires d < 10
    ensures IsDigit(c) && DigitValue(c) == d
  {
    ('0' as int + d) as char
  }

  /** The length of the run of white space that `s` starts with. */
  function LeadingSpace(s: string): (n: nat)
    ensures n <= |s|
    ensures forall i :: 0 <= i < n ==> IsWhiteSpace(s[i])
    ensures n == |s| || !IsWhiteSpace(s[n])
  {
    if |s| > 0 && IsWhiteSpace(s[0]) then 1 + LeadingSpace(s[1..]) else 0
  }

  /** The length of the run of decimal digits that `s` starts with. */
  function DigitRun(s: string): (n: nat)
    ensures n <= |s|
    ensures forall i :: 0 <= i < n ==> IsDigit(s[i])
    ensures n == |s| || !IsDigit(s[n])
  {
    if |s| > 0 && IsDigit(s[0]) then 1 + DigitRun(s[1..]) else 0
  }

  /** The number a run of decimal digits denotes, most significant digit first. */
  function DecimalValue(digits: string): nat
    requires forall i :: 0 <= i < |digits| ==> IsDigit(digits[i])
  {
    if |digits| == 0 then 0
    else DecimalValue(digits[..|digits| - 1]) * 10 + DigitValue(digits[|digits| - 1])
  }

  /**
   * `parseInt(text, 10)`: leading white space skipped, an optional sign, then
   * the longest run of digits; `None` (JavaScript's NaN) when there is no digit.
   */
  function ParseInt(text: string): (r: Option<int>)
    ensures (forall i :: 0 <= i < |text| ==> !IsDigit(text[i])) ==> r.None?
  {
    ParseSigned(text[LeadingSpace(text)..])
  }

  /** `parseInt` once the white space is skipped: an optional sign, then the digits. */
  function ParseSigned(t: string): Option<int>
  {
    var negative := |t| > 0 && t[0] == '-';
    var body := if |t| > 0 && (t[0] == '-' || t[0] == '+') then t[1..] else t;
    var n := DigitRun(body);
    if n == 0 then None
    else
      var value: int := DecimalValue(body[..n]);
      Some(if negative then -value else value)
  }

  /** `n.toString()` for a natural number: its decimal digits, without leading zeros. */
  function NatToString(n: nat): (s: string)
    ensures |s| >= 1 && forall i :: 0 <= i < |s| ==> IsDigit(s[i])
    ensures s[0] == '0' ==> n == 0
    ensures n < 10 ==> s == [Digit(n)]
  {
    if n < 10 then [Digit(n)] else NatToString(n / 10) + [Digit(n % 10)]
  }

  /** Reading back the digits `toString` writes gives the number written. */
  lemma {:induction false} DecimalOfNatToString(n: nat)
    ensures DecimalValue(NatToString(n)) == n
  {
    if n >= 10 {
      var s := NatToString(n);
      assert s[..|s| - 1] == NatToString(n / 10);
      DecimalOfNatToString(n / 10);
    } else {
      assert NatToString(n)[..0] == [];
    }
  }

  /** `parseInt(n.toString(), 10) == n` for every natural number. */
  lemma ParseIntOfNatToString(n: nat)
    ensures ParseInt(NatToString(n)) == Some(n)
  {
    var s := NatToString(n);
    assert LeadingSpace(s) == 0 by {
      assert IsDigit(s[0]);
    }
    assert s[0] != '-' && s[0] != '+' by {
      assert IsDigit(s[0]);
    }
    assert s[0..] == s;
    DigitRunOfDigits(s);
    assert s[..|s|] == s;
    DecimalOfNatToString(n);
  }

  /** A string made only of digits is one whole run. */
  lemma {:induction false} DigitRunOfDigits(s: string)
    requires forall i :: 0 <= i < |s| ==> IsDigit(s[i])
    ensures DigitRun(s) == |s|
  {
    if |s| > 0 {
      DigitRunOfDigits(s[1..]);
    }
  }

  /** A sign or a digit is not white space. */
  predicate IsSignOrDigit(c: char) {
    c == '+' || c == '-' || IsDigit(c)
  }

  /** White space followed by anything that does not start with white space: exactly `w` is skipped. */
  lemma {:induction false} LeadingSpaceSkips(w: string, x: string)
    requires forall i :: 0 <= i < |w| ==> IsWhiteSpace(w[i])
    requires x == [] || !IsWhiteSpace(x[0])
    ensures LeadingSpace(w + x) == |w|
  {
    if |w| > 0 {
      assert (w + x)[1..] == w[1..] + x;
      LeadingSpaceSkips(w[1..], x);
    } else {
      assert w + x == x;
    }
  }

  /** Digits followed by anything that does not start with a digit: the run is exactly `ds`. */
  lemma {:induction false} DigitRunStops(ds: string, rest: string)
    requires forall i :: 0 <= i < |ds| ==> IsDigit(ds[i])
    requires rest == [] || !IsDigit(rest[0])
    ensures DigitRun(ds + rest) == |ds|
  {
    if |ds| > 0 {
      assert (ds + rest)[1..] == ds[1..] + rest;
      DigitRunStops(ds[1..], rest);
    } else {
      assert ds + rest == rest;
    }
  }

  /**
   * White space, an optional sign, then a run of digits: the number is the run's
   * value with the sign applied, and whatever follows the run is ignored.
   */
  lemma {:induction false} ParseIntReadsLeadingDigits(w: string, sign: string, ds: string, rest: string)
    requires forall i :: 0 <= i < |w| ==> IsWhiteSpace(w[i])
    requires sign == "" || sign == "+" || sign == "-"
    requires |ds| >= 1 && forall i :: 0 <= i < |ds| ==> IsDigit(ds[i])
    requires rest == [] || !IsDigit(rest[0])
    ensures ParseInt(w + sign + ds + rest) == Some(if sign == "-" then -(DecimalValue(ds) as int) else DecimalValue(ds))
  {
    var after := sign + (ds + rest);
    assert w + sign + ds + rest == w + after;
    assert IsSignOrDigit(after[0]);
    LeadingSpaceSkips(w, after);
    assert (w + after)[|w|..] == after;
    ParseSignedDigits(sign, ds, rest);
  }

  /** The sign-and-digits step of `ParseIntReadsLeadingDigits`. */
  lemma {:induction false} ParseSignedDigits(sign: string, ds: string, rest: string)
    requires sign == "" || sign == "+" || sign == "-"
    requires |ds| >= 1 && forall i :: 0 <= i < |ds| ==> IsDigit(ds[i])
    requires rest == [] || !IsDigit(rest[0])
    ensures ParseSigned(sign + (ds + rest)) == Some(if sign == "-" then -(DecimalValue(ds) as int) else DecimalValue(ds))
  {
    var body := ds + rest;
    var t := sign + body;
    var unsigned := if |t| > 0 && (t[0] == '-' || t[0] == '+') then t[1..] else t;
    assert unsigned == body && ((|t| > 0 && t[0] == '-') <==> sign == "-") by {
      if sign != "" {
        assert t[0] == sign[0] && t[1..] == body;
      } else {
        assert t == body && IsDigit(t[0]);
      }
    }
    assert DigitRun(unsigned) == |ds| && unsigned[..|ds|] == ds by {
      DigitRunStops(ds, rest);
    }
  }

  /**
   * White space and an optional sign followed by no digit: NaN, whatever comes
   * after. With no sign, what follows the white space is neither more white space
   * nor a sign.
   */
  lemma {:induction false} ParseIntWithoutDigits(w: string, sign: string, rest: string)
    requires forall i :: 0 <= i < |w| ==> IsWhiteSpace(w[i])
    requires sign == "" || sign == "+" || sign == "-"
    requires rest == [] || !IsDigit(rest[0])
    requires sign == "" ==> rest == [] || (!IsWhiteSpace(rest[0]) && rest[0] != '+' && rest[0] != '-')
    ensures ParseInt(w + sign + rest) == None
  {
    var after := sign + rest;
    assert w + sign + rest == w + after;
    assert after == [] || !IsWhiteSpace(after[0]) by {
      if sign != "" {
        assert IsSignOrDigit(after[0]);
      }
    }
    LeadingSpaceSkips(w, after);
    assert (w + after)[|w|..] == after;
    if sign != "" {
      assert after[1..] == rest;
    }
  }

  // ---------------------------------------------------------------------------
  // The rotation

  /**
   * The position of the message to show, from the stored text: an absent or
   * empty item reads as "0", and anything that does not parse to a position
   * of `Messages` falls back to 0.
   */
  function StartIndex(stored: Option<string>): (k: nat)
    ensures k < |Messages|
    ensures stored.None? || stored == Some("") ==> k == 0
    ensures k > 0 ==> stored.Some? && ParseInt(stored.value) == Some(k)
    ensures (stored.Some? && stored.value != "" && ParseInt(stored.value).Some? &&
             0 <= ParseInt(stored.value).value < |Messages|) ==>
      k == ParseInt(stored.value).value
  {
    var text := if stored.None? || stored.value == "" then "0" else stored.value;
    var parsed := ParseInt(text);
    if parsed.None? || parsed.value < 0 || parsed.value >= |Messages| then 0 else parsed.value
  }

  /** A position written by `toString` is read back as that position. */
  lemma StartIndexOfNatToString(j: nat)
    requires j < |Messages|
    ensures StartIndex(Some(NatToString(j))) == j
  {
    ParseIntOfNatToString(j);
  }

  /**
   * The text stored after showing the message at `StartIndex(stored)`: the
   * following position, `(index + 1) % messages.length` (four messages), as
   * `toString` writes it.
   */
  function NextStored(stored: Option<string>): (next: string)
    ensures StartIndex(Some(next)) == (StartIndex(stored) + 1) % 4
  {
    var j := (StartIndex(stored) + 1) % 4;
    StartIndexOfNatToString(j);
    NatToString(j)
  }

  /** The messages shown over `n` sessions in a row, each with challenges, starting at position `start`. */
  function Rotation(start: nat, n: nat): (shown: seq<string>)
    requires start < |Messages|
    ensures |shown| == n
    ensures forall k :: 0 <= k < n ==> shown[k] == Messages[(start + k) % 4]
    decreases n
  {
    if n == 0 then []
    else
      var rest := Rotation((start + 1) % 4, n - 1);
      assert forall j :: 0 <= j < n - 1 ==> rest[j] == Messages[(start + 1 + j) % 4] by {
        forall j | 0 <= j < n - 1 ensures rest[j] == Messages[(start + 1 + j) % 4] {
          RotateStep(start, j);
        }
      }
      [Messages[start]] + rest
  }

  /** Moving to the next position and then `b` further lands `b + 1` past the start. */
  lemma RotateStep(a: nat, b: nat)
    ensures ((a + 1) % 4 + b) % 4 == (a + 1 + b) % 4
  {
    var q := (a + 1) / 4;
    assert a + 1 + b == q * 4 + ((a + 1) % 4 + b);
  }

  /** One more session appends the message at the next position. */
  lemma RotationExtends(start: nat, n: nat)
    requires start < |Messages|
    ensures Rotation(start, n + 1) == Rotation(start, n) + [Messages[(start + n) % 4]]
  {
    var longer, shorter := Rotation(start, n + 1), Rotation(start, n);
    assert forall k :: 0 <= k < n + 1 ==> longer[k] == (shorter + [Messages[(start + n) % 4]])[k];
  }

  /** A sequence of four read from position `start` onwards, wrapping around, is a permutation. */
  lemma RotatedFour<T>(s: seq<T>, r: seq<T>, start: nat)
    requires |s| == 4 && |r| == 4 && start < 4
    requires forall k :: 0 <= k < 4 ==> r[k] == s[(start + k) % 4]
    ensures multiset(r) == multiset(s)
  {
    assert r == s[start..] + s[..start] by {
      forall k | 0 <= k < 4 ensures r[k] == (s[start..] + s[..start])[k] {
        if start + k < 4 {
          assert (start + k) % 4 == start + k;
        } else {
          assert (start + k) % 4 == start + k - 4;
        }
      }
    }
    assert s == s[..start] + s[start..];
  }

  /**
   * The stored text after a showing starts the rotation one further on: the
   * sessions after this one continue where this one left off.
   */
  lemma RotationContinues(stored: Option<string>, n: nat)
    ensures Rotation(StartIndex(stored), n + 1) ==
      [Messages[StartIndex(stored)]] + Rotation(StartIndex(Some(NextStored(stored))), n)
  {
  }

  /** Four sessions in a row show each of the four messages once, wherever the rotation starts. */
  lemma FourSessionsShowEveryMessage(start: nat)
    requires start < |Messages|
    ensures multiset(Rotation(start, 4)) == multiset(Messages)
  {
    RotatedFour(Messages, Rotation(start, 4), start);
  }

  // ---------------------------------------------------------------------------
  // One check, as a function of what the browser holds

  /** What a reminder check reads and writes: both browser stores and the messages shown so far. */
  datatype ReminderState = ReminderState(local: map<string, string>, session: map<string, string>, shown: seq<string>)

  /** The item `key` of a store, if present. */
  function Item(store: map<string, string>, key: string): Option<string> {
    if key in store then Some(store[key]) else None
  }

  /** The session is flagged once a reminder was shown in it. */
  predicate Flagged(s: ReminderState) {
    Item(s.session, ReminderShownKey) == Some("true")
  }

  /**
   * One `checkAndShowReminder`: with no challenges, or in a flagged session,
   * nothing changes; otherwise the message at the stored position is shown, the
   * next position is stored, and the session is flagged.
   */
  function CheckStep(hasChallenges: bool, s: ReminderState): (r: ReminderState)
    ensures !hasChallenges || Flagged(s) ==> r == s
    ensures hasChallenges ==> Flagged(r)
    ensures |s.shown| <= |r.shown| <= |s.shown| + 1 && r.shown[..|s.shown|] == s.shown
  {
    if !hasChallenges || Flagged(s) then s
    else
      var stored := Item(s.local, ReminderIndexKey);
      ReminderState(s.local[ReminderIndexKey := NextStored(stored)],
                    s.session[ReminderShownKey := "true"],
                    s.shown + [Messages[StartIndex(stored)]])
  }

  /**
   * At most one reminder per session: a second check in the same session changes
   * nothing, so any number of checks shows at most one message.
   */
  lemma OncePerSession(hasChallenges: bool, s: ReminderState)
    ensures CheckStep(hasChallenges, CheckStep(hasChallenges, s)) == CheckStep(hasChallenges, s)
    ensures |CheckStep(hasChallenges, CheckStep(hasChallenges, s)).shown| <= |s.shown| + 1
  {
  }

  /**
   * In a new session (nothing flagged) with challenges, the check shows the message
   * at the stored position and leaves a stored position one further on.
   */
  lemma CheckStepAdvances(s: ReminderState)
    requires Item(s.session, ReminderShownKey).None?
    ensures var stored := Item(s.local, ReminderIndexKey);
      && CheckStep(true, s).shown == s.shown + [Messages[StartIndex(stored)]]
      && StartIndex(Item(CheckStep(true, s).local, ReminderIndexKey)) == (StartIndex(stored) + 1) % 4
  {
  }

  // ---------------------------------------------------------------------------
  // The stateful pieces

  /** The browser's two key-value stores: `localStorage` (persistent) and `sessionStorage` (this session). */
  class Browser {
    var local: map<string, string>
    var session: map<string, string>

    constructor (local0: map<string, string>, session0: map<string, string>)
      ensures local == local0 && session == session0
    {
      local := local0;
      session := session0;
    }

    function LocalItem(key: string): Option<string>
      reads this
    {
      Item(local, key)
    }

    function SessionItem(key: string): Option<string>
      reads this
    {
      Item(session, key)
    }

    method SetLocalItem(key: string, value: string)
      modifies this
      ensures local == old(local)[key := value] && session == old(session)
    {
      local := local[key := value];
    }

    method SetSessionItem(key: string, value: string)
      modifies this
      ensures session == old(session)[key := value] && local == old(local)
    {
      session := session[key := value];
    }
  }

  /** The reminder display: the messages shown so far, in order. */
  class Notifier {
    var shown: seq<string>

    constructor ()
      ensures shown == []
    {
      shown := [];
    }

    method ShowReminder(message: string)
      modifies this
      ensures shown == old(shown) + [message]
    {
      shown := shown + [message];
    }
  }

  class ReminderService {
    const store: StorageService.Storage
    const browser: Browser
    const notifier: Notifier

    constructor (store: StorageService.Storage, browser: Browser, notifier: Notifier)
      ensures this.store == store && this.browser == browser && this.notifier == notifier
    {
      this.store := store;
      this.browser := browser;
      this.notifier := notifier;
    }

    /** The browser stores and the messages shown, as one value. */
    function State(): ReminderState
      reads browser, notifier
    {
      ReminderState(browser.local, browser.session, notifier.shown)
    }

    /**
     * `checkAndShowReminder`: with no challenges, or once the session flag is
     * "true", nothing happens; otherwise the message at the stored position is
     * shown, the next position is stored and the session is flagged.
     */
    method CheckAndShowReminder()
      modifies browser, notifier
      ensures var skip := |store.GetChallenges()| == 0 || old(browser.SessionItem(ReminderShownKey)) == Some("true");
        var stored := old(browser.LocalItem(ReminderIndexKey));
        && (skip ==> browser.local == old(browser.local) && browser.session == old(browser.session)
                     && notifier.shown == old(notifier.shown))
        && (!skip ==>
             && notifier.shown == old(notifier.shown) + [Messages[StartIndex(stored)]]
             && browser.local == old(browser.local)[ReminderIndexKey := NextStored(stored)]
             && browser.session == old(browser.session)[ReminderShownKey := "true"])
      ensures State() == CheckStep(|store.GetChallenges()| > 0, old(State()))
    {
      var activeChallenges := store.GetChallenges();
      if |activeChallenges| == 0 {
        return;
      }
      if browser.SessionItem(ReminderShownKey) == Some("true") {
        return;
      }
      var stored := browser.LocalItem(ReminderIndexKey);
      var currentIndex := StartIndex(stored);
      notifier.ShowReminder(Messages[currentIndex]);
      browser.SetLocalItem(ReminderIndexKey, NextStored(stored));
      browser.SetSessionItem(ReminderShownKey, "true");
    }
  }
}
