/** Path-safe call ids from SIP Call-IDs (src/call-id.ts). */
module CallIds {

  predicate IsSpace(c: char) {
    || '\t' <= c <= '\r' || c == ' ' || c == '\U{A0}' || c == '\U{1680}' || '\U{2000}' <= c <= '\U{200A}'
    || c == '\U{2028}' || c == '\U{2029}' || c == '\U{202F}' || c == '\U{205F}' || c == '\U{3000}' || c == '\U{FEFF}'
  }

  predicate IsOpening(c: char) {
    c == '"' || c == '\'' || c == '<' || IsSpace(c)
  }

  predicate IsClosing(c: char) {
    c == '>' || c == '"' || c == '\'' || IsSpace(c)
  }

  predicate IsHexDigit(c: char) {
    '0' <= c <= '9' || 'a' <= c <= 'f'
  }

  /** Characters that may stand in a URL path segment. */
  predicate IsSafe(c: char) {
    || 'A' <= c <= 'Z' || 'a' <= c <= 'z' || '0' <= c <= '9'
    || c == '.' || c == '_' || c == '~' || c == ':' || c == '@' || c == '+' || c == '=' || c == '-'
  }

  function DropLeft(s: string, p: char -> bool): string {
    if s != "" && p(s[0]) then DropLeft(s[1..], p) else s
  }

  function DropRight(s: string, p: char -> bool): string {
    if s != "" && p(s[|s| - 1]) then DropRight(s[..|s| - 1], p) else s
  }

  predicate IsLetter(c: char, lower: char, upper: char) {
    c == lower || c == upper
  }

  predicate StartsWithSip(s: string) {
    |s| >= 4 && IsLetter(s[0], 's', 'S') && IsLetter(s[1], 'i', 'I') && IsLetter(s[2], 'p', 'P') && s[3] == ':'
  }

  /** Each run of unsafe characters becomes one dash; `inRun` says the run has its dash already. */
  function ReplaceUnsafe(s: string, inRun: bool): string {
    if s == "" then ""
    else if IsSafe(s[0]) then [s[0]] + ReplaceUnsafe(s[1..], false)
    else (if inRun then "" else "-") + ReplaceUnsafe(s[1..], true)
  }

  /** Each run of dashes becomes one. */
  function CollapseDashes(s: string): string {
    if s == "" then ""
    else if |s| >= 2 && s[0] == '-' && s[1] == '-' then CollapseDashes(s[1..])
    else [s[0]] + CollapseDashes(s[1..])
  }

  function StripDashes(s: string): string {
    var t := if s != "" && s[0] == '-' then s[1..] else s;
    if t != "" && t[|t| - 1] == '-' then t[..|t| - 1] else t
  }

  function Stripped(sipCallId: string): string {
    var quoted := DropRight(DropLeft(sipCallId, IsSpace), IsSpace);
    var bare := DropRight(DropLeft(quoted, IsOpening), IsClosing);
    var rest := if StartsWithSip(bare) then bare[4..] else bare;
    StripDashes(CollapseDashes(ReplaceUnsafe(rest, false)))
  }

  /** A version 4 UUID as randomUUID prints it. */
  predicate IsUuid(u: string) {
    && |u| == 36 && u[8] == '-' && u[13] == '-' && u[18] == '-' && u[23] == '-'
    && forall i | 0 <= i < 36 && i != 8 && i != 13 && i != 18 && i != 23 :: IsHexDigit(u[i])
  }

  function NormalizeCallId(sipCallId: string, uuid: string): string {
    var stripped := Stripped(sipCallId);
    if stripped == "" then "call-" + uuid else stripped
  }

  predicate NoDoubledDash(s: string) {
    forall i | 0 <= i < |s| - 1 :: !(s[i] == '-' && s[i + 1] == '-')
  }

  /** Non-empty, path-safe, and with no doubled, leading or trailing dash. */
  predicate NormalForm(s: string) {
    s != "" && (forall i | 0 <= i < |s| :: IsSafe(s[i])) && NoDoubledDash(s) && s[0] != '-' && s[|s| - 1] != '-'
  }

  lemma {:induction false} ReplaceUnsafeIsSafe(s: string, inRun: bool)
    ensures forall i :: 0 <= i < |ReplaceUnsafe(s, inRun)| ==> IsSafe(ReplaceUnsafe(s, inRun)[i])
    decreases |s|
  {
    if s != "" {
      ReplaceUnsafeIsSafe(s[1..], !IsSafe(s[0]));
    }
  }

  lemma {:induction false} CollapseIsClean(s: string)
    requires forall i :: 0 <= i < |s| ==> IsSafe(s[i])
    ensures var r := CollapseDashes(s);
            && (forall i :: 0 <= i < |r| ==> IsSafe(r[i])) && NoDoubledDash(r)
            && (s != "" ==> r != "" && r[0] == s[0])
    decreases |s|
  {
    if s != "" {
      CollapseIsClean(s[1..]);
    }
  }

  /** Every call id is in normal form, whatever the SIP Call-ID was. */
  lemma CallIdIsNormal(sipCallId: string, uuid: string)
    requires IsUuid(uuid)
    ensures NormalForm(NormalizeCallId(sipCallId, uuid))
  {
    var bare := DropRight(DropLeft(DropRight(DropLeft(sipCallId, IsSpace), IsSpace), IsOpening), IsClosing);
    var rest := if StartsWithSip(bare) then bare[4..] else bare;
    var safe := ReplaceUnsafe(rest, false);
    ReplaceUnsafeIsSafe(rest, false);
    CollapseIsClean(safe);
    StripIsNormal(CollapseDashes(safe));
    var r := NormalizeCallId(sipCallId, uuid);
    if Stripped(sipCallId) == "" {
      assert r[0] == 'c' && r[|r| - 1] == uuid[35];
      assert forall i :: 5 <= i < |r| ==> r[i] == uuid[i - 5];
    }
  }

  lemma StripIsNormal(s: string)
    requires (forall i :: 0 <= i < |s| ==> IsSafe(s[i])) && NoDoubledDash(s)
    ensures StripDashes(s) == "" || NormalForm(StripDashes(s))
  {
    var t := if s != "" && s[0] == '-' then s[1..] else s;
    assert forall i :: 0 <= i < |t| - 1 ==> !(t[i] == '-' && t[i + 1] == '-');
  }

  // ----- what an id is made of

  /** A character of a word; everything else only separates. */
  predicate IsWordChar(c: char) {
    IsSafe(c) && c != '-'
  }

  /** The words of a text with one dash between them; `started` after the first word, `gap` after a separator. */
  function Glued(s: string, started: bool, gap: bool): string {
    if s == "" then ""
    else if IsWordChar(s[0]) then (if started && gap then "-" else "") + [s[0]] + Glued(s[1..], true, false)
    else Glued(s[1..], started, true)
  }

  lemma {:induction false} ReplacingKeepsWords(s: string, inRun: bool, started: bool, gap: bool)
    requires inRun ==> gap
    ensures Glued(ReplaceUnsafe(s, inRun), started, gap) == Glued(s, started, gap)
    decreases |s|
  {
    if s == "" { return; }
    var r := ReplaceUnsafe(s, inRun);
    if IsSafe(s[0]) {
      assert r[1..] == ReplaceUnsafe(s[1..], false);
      ReplacingKeepsWords(s[1..], false, true, false);
      ReplacingKeepsWords(s[1..], false, started, true);
      return;
    }
    ReplacingKeepsWords(s[1..], true, started, true);
    if inRun {
      assert r == ReplaceUnsafe(s[1..], true);
    } else {
      assert r[0] == '-' && r[1..] == ReplaceUnsafe(s[1..], true);
    }
  }

  lemma {:induction false} CollapsingKeepsWords(s: string, started: bool, gap: bool)
    ensures Glued(CollapseDashes(s), started, gap) == Glued(s, started, gap)
    decreases |s|
  {
    if s == "" { return; }
    if |s| >= 2 && s[0] == '-' && s[1] == '-' {
      CollapsingKeepsWords(s[1..], started, gap);
      assert s[1..][1..] == s[2..];
      return;
    }
    assert CollapseDashes(s)[1..] == CollapseDashes(s[1..]);
    CollapsingKeepsWords(s[1..], true, false);
    CollapsingKeepsWords(s[1..], started, true);
  }

  function WithoutLastDash(s: string): string {
    if s != "" && s[|s| - 1] == '-' then s[..|s| - 1] else s
  }

  lemma {:induction false} StrippingKeepsWords(s: string, started: bool, gap: bool)
    requires (forall i :: 0 <= i < |s| ==> IsSafe(s[i])) && NoDoubledDash(s) && (gap || !started ==> s == "" || s[0] != '-')
    ensures Glued(s, started, gap) == (if started && gap && s != "" then "-" else "") + WithoutLastDash(s)
    decreases |s|
  {
    if s == "" { return; }
    assert s == [s[0]] + s[1..];
    if s[0] != '-' {
      StrippingKeepsWords(s[1..], true, false);
      assert WithoutLastDash(s) == [s[0]] + WithoutLastDash(s[1..]);
      return;
    }
    assert |s| > 1 ==> s[1] != '-';
    StrippingKeepsWords(s[1..], true, true);
    if s[1..] != "" { assert WithoutLastDash(s) == ['-'] + WithoutLastDash(s[1..]); }
  }

  predicate CleanText(s: string) {
    (forall i :: 0 <= i < |s| ==> IsSafe(s[i])) && NoDoubledDash(s)
  }

  lemma BehindADash(s: string)
    requires CleanText(s) && s != "" && s[0] == '-'
    ensures CleanText(s[1..]) && (s[1..] == "" || s[1..][0] != '-')
    ensures StripDashes(s) == WithoutLastDash(s[1..])
  {
    hide IsSafe;
    assert |s| > 1 ==> !(s[0] == '-' && s[0 + 1] == '-');
    forall i | 0 <= i < |s[1..]| - 1
      ensures !(s[1..][i] == '-' && s[1..][i + 1] == '-')
    {
      assert s[1..][i] == s[i + 1] && s[1..][i + 1] == s[(i + 1) + 1];
    }
  }

  lemma StrippedIsGlued(s: string)
    requires CleanText(s)
    ensures StripDashes(s) == Glued(s, false, false)
  {
    hide IsSafe;
    if s == "" || s[0] != '-' {
      StrippingKeepsWords(s, false, false);
      return;
    }
    BehindADash(s);
    StrippingKeepsWords(s[1..], false, true);
    DashSeparates(s);
  }

  lemma DashSeparates(s: string)
    requires s != "" && s[0] == '-'
    ensures Glued(s, false, false) == Glued(s[1..], false, true)
  {
  }

  lemma IdIsGlued(rest: string)
    ensures StripDashes(CollapseDashes(ReplaceUnsafe(rest, false))) == Glued(rest, false, false)
  {
    var safe := ReplaceUnsafe(rest, false);
    ReplaceUnsafeIsSafe(rest, false);
    CollapseIsClean(safe);
    ReplacingKeepsWords(rest, false, false, false);
    CollapsingKeepsWords(safe, false, false);
    StrippedIsGlued(CollapseDashes(safe));
  }

  lemma {:induction false} DropsLeft(pre: string, rest: string, p: char -> bool) returns (k: nat)
    requires rest != "" && !p(rest[0])
    ensures k <= |pre| && DropLeft(pre + rest, p) == pre[k..] + rest
    ensures (forall i :: 0 <= i < |pre| ==> p(pre[i])) ==> k == |pre|
    decreases |pre|
  {
    if pre == "" {
      assert pre + rest == rest;
      return 0;
    }
    if !p(pre[0]) { return 0; }
    assert (pre + rest)[1..] == pre[1..] + rest;
    var n := DropsLeft(pre[1..], rest, p);
    return n + 1;
  }

  lemma {:induction false} DropsRight(rest: string, post: string, p: char -> bool) returns (k: nat)
    requires rest != "" && !p(rest[|rest| - 1])
    ensures k <= |post| && DropRight(rest + post, p) == rest + post[..k]
    ensures (forall i :: 0 <= i < |post| ==> p(post[i])) ==> k == 0
    decreases |post|
  {
    if post == "" {
      assert rest + post == rest;
      return 0;
    }
    if !p(post[|post| - 1]) {
      assert post[..|post|] == post;
      return |post|;
    }
    var init := post[..|post| - 1];
    assert (rest + post)[..|rest + post| - 1] == rest + init;
    k := DropsRight(rest, init, p);
    assert init[..k] == post[..k];
  }

  predicate AllOf(s: string, p: char -> bool) {
    forall i :: 0 <= i < |s| ==> p(s[i])
  }

  lemma SpacesGo(pre: string, s: string, post: string) returns (pre': string, post': string)
    requires AllOf(pre, IsOpening) && AllOf(post, IsClosing) && s != "" && !IsOpening(s[0]) && !IsClosing(s[|s| - 1])
    ensures AllOf(pre', IsOpening) && AllOf(post', IsClosing)
    ensures DropRight(DropLeft(pre + s + post, IsSpace), IsSpace) == pre' + (s + post')
  {
    hide DropLeft, DropRight;
    assert pre + s + post == pre + (s + post) && (s + post)[0] == s[0];
    var k := DropsLeft(pre, s + post, IsSpace);
    pre' := pre[k..];
    assert pre' + (s + post) == pre' + s + post && (pre' + s)[|pre' + s| - 1] == s[|s| - 1];
    var j := DropsRight(pre' + s, post, IsSpace);
    post' := post[..j];
    assert pre' + s + post' == pre' + (s + post');
  }

  lemma DelimitersGo(pre: string, s: string, post: string)
    requires AllOf(pre, IsOpening) && AllOf(post, IsClosing) && s != "" && !IsOpening(s[0]) && !IsClosing(s[|s| - 1])
    ensures DropRight(DropLeft(DropRight(DropLeft(pre + s + post, IsSpace), IsSpace), IsOpening), IsClosing) == s
  {
    hide DropLeft, DropRight, IsOpening, IsClosing, IsSpace;
    var pre', post' := SpacesGo(pre, s, post);
    assert (s + post')[0] == s[0];
    var m := DropsLeft(pre', s + post', IsOpening);
    assert pre'[m..] == "" && "" + (s + post') == s + post';
    var n := DropsRight(s, post', IsClosing);
    assert post'[..n] == "" && s + "" == s;
  }

  /** What a Call-ID becomes: whatever quotes, brackets and blanks stand around it go, one `sip:` in any case of letters
      goes, and of the rest the words stay, with one dash wherever something else stood between two of them. An id
      without words is replaced by a fresh one. */
  lemma CallIdSpelled(pre: string, s: string, post: string, uuid: string)
    requires AllOf(pre, IsOpening) && AllOf(post, IsClosing) && s != "" && !IsOpening(s[0]) && !IsClosing(s[|s| - 1])
    ensures var words := Glued(if StartsWithSip(s) then s[4..] else s, false, false);
            NormalizeCallId(pre + s + post, uuid) == if words == "" then "call-" + uuid else words
  {
    DelimitersGo(pre, s, post);
    IdIsGlued(if StartsWithSip(s) then s[4..] else s);
  }

  lemma EmptyCallId(uuid: string)
    ensures NormalizeCallId("", uuid) == "call-" + uuid
  {
  }

  /** The delimiters, the scheme and the path-safe characters, spelled out. */
  lemma Delimiters()
    ensures IsOpening('"') && IsOpening('\'') && IsOpening('<') && IsOpening(' ') && IsOpening('\t') && IsOpening('\n') && IsOpening('\r')
    ensures IsClosing('"') && IsClosing('\'') && IsClosing('>') && IsClosing(' ') && IsClosing('\t') && IsClosing('\n') && IsClosing('\r')
    ensures !IsOpening('>') && !IsClosing('<')
    ensures forall c :: IsSafe(c) ==> !IsOpening(c) && !IsClosing(c)
    ensures forall c :: IsSafe(c) <==> 'a' <= c <= 'z' || 'A' <= c <= 'Z' || '0' <= c <= '9'
                                       || c in {'.', '_', '~', ':', '@', '+', '=', '-'}
  {
  }

  lemma Schemes()
    ensures StartsWithSip("sip:a") && StartsWithSip("SIP:a") && StartsWithSip("Sip:a") && !StartsWithSip("sips:a") && !StartsWithSip("sip")
  {
  }

  lemma {:induction false} NormalIsLeftAlone(s: string)
    requires (forall i :: 0 <= i < |s| ==> IsSafe(s[i])) && NoDoubledDash(s)
    ensures ReplaceUnsafe(s, false) == s && CollapseDashes(s) == s
    decreases |s|
  {
    if s != "" {
      NormalIsLeftAlone(s[1..]);
      assert s == [s[0]] + s[1..];
    }
  }

  lemma NothingToTrim(s: string)
    requires NormalForm(s)
    ensures DropLeft(s, IsSpace) == s && DropRight(s, IsSpace) == s && DropLeft(s, IsOpening) == s && DropRight(s, IsClosing) == s
  {
    assert IsSafe(s[0]) && IsSafe(s[|s| - 1]);
  }

  lemma WithoutSchemeIsKept(s: string, uuid: string)
    requires NormalForm(s) && !StartsWithSip(s)
    ensures NormalizeCallId(s, uuid) == s
  {
    NothingToTrim(s);
    NormalIsLeftAlone(s);
  }

  lemma SchemeIsDropped(s: string, uuid: string)
    requires NormalForm(s) && StartsWithSip(s)
    ensures NormalizeCallId(s, uuid) != s
  {
    NothingToTrim(s);
    var rest := s[4..];
    assert forall i :: 0 <= i < |rest| - 1 ==> !(rest[i] == '-' && rest[i + 1] == '-');
    NormalIsLeftAlone(rest);
    assert Stripped(s) == StripDashes(rest);
    if Stripped(s) == "" {
      assert NormalizeCallId(s, uuid)[0] == 'c';
    }
  }

  /** An id in normal form is kept exactly when it does not begin with a `sip:` scheme. */
  lemma NormalFormIsKept(s: string, uuid: string)
    requires NormalForm(s) && IsUuid(uuid)
    ensures NormalizeCallId(s, uuid) == s <==> !StartsWithSip(s)
  {
    if StartsWithSip(s) {
      SchemeIsDropped(s, uuid);
    } else {
      WithoutSchemeIsKept(s, uuid);
    }
  }

  lemma WithSchemeIsNormal(s: string)
    requires NormalForm(s)
    ensures NormalForm("sip:" + s)
  {
    var t := "sip:" + s;
    assert forall i :: 0 <= i < |t| ==> t[i] == if i < 4 then "sip:"[i] else s[i - 4];
  }

  lemma OneSchemeIsDropped(s: string, uuid: string)
    requires NormalForm(s) && IsUuid(uuid)
    ensures NormalizeCallId("sip:" + s, uuid) == s
  {
    var t := "sip:" + s;
    WithSchemeIsNormal(s);
    NothingToTrim(t);
    assert t[4..] == s;
    NormalIsLeftAlone(s);
  }

  /** Normalising again changes nothing exactly when no second scheme is left: only one is taken off. */
  lemma NormalizeTwice(s: string, uuid: string)
    requires IsUuid(uuid)
    ensures var once := NormalizeCallId(s, uuid); NormalizeCallId(once, uuid) == once <==> !StartsWithSip(once)
  {
    CallIdIsNormal(s, uuid);
    NormalFormIsKept(NormalizeCallId(s, uuid), uuid);
  }

  lemma TwoSchemes(s: string, uuid: string)
    requires IsUuid(uuid) && s == "sip:a"
    ensures NormalizeCallId("sip:" + s, uuid) == s && NormalizeCallId(s, uuid) != s
  {
    OneSchemeIsDropped(s, uuid);
    NormalFormIsKept(s, uuid);
  }
}
