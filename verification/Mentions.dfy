/** Rewriting "@<digits>" mention tokens to names, with one cache for a whole batch of rows. */
module Mentions {
  import opened Tables
  import Text

  datatype MessageRow = MessageRow(
    chatJID: string,
    id: string,
    senderJID: string,
    senderName: string,
    fromMe: bool,
    ts: int,
    kind: string,
    text: string,
    quotedID: string,
    hasMedia: bool)

  /* ----- one token's name ----- */

  function Flat(name: string): string {
    Text.ReplaceAll(name, "\t", " ")
  }

  // The address itself, its mapped phone address, the digits as a phone number, then the mapped number's digits.
  function MentionName(db: Db, digits: string): string {
    var lid := digits + "@lid";
    var pn := if lid in db.lidMap then db.lidMap[lid] else "";
    var onPhone := if pn != "" then NameOn(db.contacts, pn) else "";
    var onDigits := NameOn(db.contacts, digits + "@s.whatsapp.net");
    if NameOn(db.contacts, lid) != "" then Flat(NameOn(db.contacts, lid))
    else if onPhone != "" then Flat(onPhone)
    else if onDigits != "" then Flat(onDigits)
    else if 0 < IndexOf(pn, '@') < |pn| then UserOf(pn)
    else ""
  }

  // The name of the contact on an address, or "" where there is none.
  function NamedOn(db: Db, jid: string): string {
    if jid in db.contacts then
      var c := db.contacts[jid];
      if c.fullName != "" then c.fullName else if c.pushName != "" then c.pushName else c.businessName
    else ""
  }

  // The privacy address itself first, then its mapped phone address, then the digits as a phone number,
  // each with tabs made spaces, and at last the mapped number's digits.
  lemma MentionNameOrder(db: Db, digits: string)
    ensures var lid, own := digits + "@lid", digits + "@s.whatsapp.net";
            var pn := if lid in db.lidMap then db.lidMap[lid] else "";
      && (NamedOn(db, lid) != "" ==> MentionName(db, digits) == Flat(NamedOn(db, lid)))
      && (NamedOn(db, lid) == "" && pn != "" && NamedOn(db, pn) != "" ==>
            MentionName(db, digits) == Flat(NamedOn(db, pn)))
      && (NamedOn(db, lid) == "" && (pn == "" || NamedOn(db, pn) == "") && NamedOn(db, own) != "" ==>
            MentionName(db, digits) == Flat(NamedOn(db, own)))
      && (NamedOn(db, lid) == "" && (pn == "" || NamedOn(db, pn) == "") && NamedOn(db, own) == "" ==>
            MentionName(db, digits) == if 0 < IndexOf(pn, '@') < |pn| then pn[..IndexOf(pn, '@')] else "")
  {
    assert forall jid :: NameOn(db.contacts, jid) == NamedOn(db, jid);
  }

  lemma {:induction false} FlatHasNoTab(name: string)
    ensures |Flat(name)| == |name|
    ensures forall i :: 0 <= i < |name| ==> Flat(name)[i] == if name[i] == '\t' then ' ' else name[i]
  {
    if name != [] {
      FlatHasNoTab(name[1..]);
      assert Text.StartsWith(name, "\t") ==> name[0 + 0] == "\t"[0];
      if name[0] == '\t' {
        assert Text.StartsWith(name, "\t") && |"\t"| == 1;
      }
    }
  }

  /* ----- finding the tokens ----- */

  predicate IsDigit(c: char) {
    '0' <= c <= '9'
  }

  // White space as the expression's \s has it.
  predicate IsBlank(c: char) {
    c in "\t\n\U{0C}\r "
  }

  lemma CharacterClasses(c: char)
    ensures IsDigit(c) <==> c in "0123456789"
    ensures IsBlank(c) <==> c == ' ' || c == '\t' || c == '\n' || c == '\r' || c as int == 12
  {
  }

  function Digits(s: string): string {
    if s == [] || !IsDigit(s[0]) then [] else [s[0]] + Digits(s[1..])
  }

  // A piece of text: a plain character, or a token with the blank before it, if any.
  datatype Piece = Plain(c: char) | Mention(prefix: string, digits: string)

  predicate TokenAt(s: string) {
    s != [] && s[0] == '@' && 5 <= |Digits(s[1..])|
  }

  function FirstPiece(s: string, atStart: bool): Piece
    requires s != []
  {
    if atStart && TokenAt(s) then Mention("", Digits(s[1..]))
    else if IsBlank(s[0]) && TokenAt(s[1..]) then Mention([s[0]], Digits(s[2..]))
    else Plain(s[0])
  }

  function FirstLength(s: string, atStart: bool): (n: nat)
    requires s != []
    ensures 0 < n <= |s|
  {
    DigitsArePrefix(s[1..]);
    if atStart && TokenAt(s) then 1 + |Digits(s[1..])|
    else if IsBlank(s[0]) && TokenAt(s[1..]) then
      DigitsArePrefix(s[2..]);
      2 + |Digits(s[2..])|
    else 1
  }

  // Leftmost, non-overlapping matches of a token at the very start or after a blank.
  function Pieces(s: string, atStart: bool): seq<Piece>
    decreases |s|
  {
    if s == [] then [] else [FirstPiece(s, atStart)] + Pieces(s[FirstLength(s, atStart)..], false)
  }

  lemma {:induction false} DigitsArePrefix(s: string)
    ensures |Digits(s)| <= |s| && s[..|Digits(s)|] == Digits(s)
    ensures |Digits(s)| < |s| ==> !IsDigit(s[|Digits(s)|])
    ensures forall c :: c in Digits(s) ==> IsDigit(c)
  {
    if s != [] && IsDigit(s[0]) {
      DigitsArePrefix(s[1..]);
    }
  }

  function Source(p: Piece): string {
    match p
    case Plain(c) => [c]
    case Mention(prefix, digits) => prefix + "@" + digits
  }

  function SourceOf(ps: seq<Piece>): string {
    if ps == [] then [] else Source(ps[0]) + SourceOf(ps[1..])
  }

  // A token nobody can name stays as it arrived.
  function Shown(db: Db, p: Piece): string {
    match p
    case Plain(c) => [c]
    case Mention(prefix, digits) =>
      if MentionName(db, digits) == "" then Source(p) else prefix + "@" + MentionName(db, digits)
  }

  function ShownOf(db: Db, ps: seq<Piece>): string {
    if ps == [] then [] else Shown(db, ps[0]) + ShownOf(db, ps[1..])
  }

  // One text rewritten on its own, looking every token up.
  function Rewrite(db: Db, text: string): string {
    ShownOf(db, Pieces(text, true))
  }

  ghost predicate WellMatched(p: Piece) {
    p.Mention? ==> 5 <= |p.digits| && (forall c :: c in p.digits ==> IsDigit(c)) &&
                   (p.prefix == "" || (|p.prefix| == 1 && IsBlank(p.prefix[0])))
  }

  // Cutting a text into pieces loses nothing, and only standalone tokens of five or more digits are cut out:
  // everything else is passed through character by character.
  lemma {:induction false} PiecesSpellTheText(s: string, atStart: bool)
    ensures SourceOf(Pieces(s, atStart)) == s
    ensures forall p :: p in Pieces(s, atStart) ==> WellMatched(p)
    decreases |s|
  {
    if s != [] {
      FirstPieceSpellsItsText(s, atStart);
      PiecesSpellTheText(s[FirstLength(s, atStart)..], false);
    }
  }

  lemma FirstPieceSpellsItsText(s: string, atStart: bool)
    requires s != []
    ensures WellMatched(FirstPiece(s, atStart))
    ensures s == Source(FirstPiece(s, atStart)) + s[FirstLength(s, atStart)..]
  {
    if atStart && TokenAt(s) {
      TokenSpells(s);
      assert Source(FirstPiece(s, atStart)) == "@" + Digits(s[1..]);
    } else if IsBlank(s[0]) && TokenAt(s[1..]) {
      BlankTokenSpells(s);
    } else {
      assert s == [s[0]] + s[1..];
    }
  }

  lemma BlankTokenSpells(s: string)
    requires s != [] && TokenAt(s[1..])
    ensures 2 + |Digits(s[2..])| <= |s| && s == [s[0]] + "@" + Digits(s[2..]) + s[2 + |Digits(s[2..])|..]
    ensures 5 <= |Digits(s[2..])| && forall c :: c in Digits(s[2..]) ==> IsDigit(c)
  {
    TokenSpells(s[1..]);
    assert s[1..][1..] == s[2..];
    assert s[1..][1 + |Digits(s[2..])|..] == s[2 + |Digits(s[2..])|..];
  }

  lemma TokenSpells(s: string)
    requires TokenAt(s)
    ensures 1 + |Digits(s[1..])| <= |s| && s == "@" + Digits(s[1..]) + s[1 + |Digits(s[1..])|..]
    ensures forall c :: c in Digits(s[1..]) ==> IsDigit(c)
  {
    DigitsArePrefix(s[1..]);
    assert s[1..][|Digits(s[1..])|..] == s[1 + |Digits(s[1..])|..];
  }

  // A text without '@' has no token, so the early return shows what the rewrite would.
  lemma {:induction false} NoAtNoRewrite(db: Db, s: string, atStart: bool)
    requires '@' !in s
    ensures ShownOf(db, Pieces(s, atStart)) == s
    decreases |s|
  {
    if s != [] {
      NoAtNoRewrite(db, s[1..], false);
      assert !TokenAt(s[1..]);
      assert Pieces(s, atStart)[1..] == Pieces(s[1..], false);
    }
  }

  /* ----- every standalone token is found ----- */

  lemma {:induction false} DigitsStop(s: string, rest: string)
    requires rest == [] || !IsDigit(rest[0])
    ensures Digits(s + rest) == Digits(s)
  {
    if s == [] {
      assert s + rest == rest;
    } else {
      assert (s + rest)[1..] == s[1..] + rest;
      DigitsStop(s[1..], rest);
    }
  }

  lemma {:induction false} AllDigits(d: string)
    requires forall c :: c in d ==> IsDigit(c)
    ensures Digits(d) == d
  {
    if d != [] {
      AllDigits(d[1..]);
      assert d == [d[0]] + d[1..];
    }
  }

  // What follows a blank has no say in whether a token stands before it.
  lemma TokenStops(s: string, rest: string)
    requires rest != [] && IsBlank(rest[0])
    ensures TokenAt(s + rest) <==> TokenAt(s)
  {
    if s != [] {
      assert (s + rest)[1..] == s[1..] + rest;
      DigitsStop(s[1..], rest);
    } else {
      assert s + rest == rest;
    }
  }

  lemma TokenFirst(d: string, rest: string)
    requires 5 <= |d| && (forall c :: c in d ==> IsDigit(c)) && (rest == [] || !IsDigit(rest[0]))
    ensures TokenAt("@" + d + rest) && Digits(("@" + d + rest)[1..]) == d && ("@" + d + rest)[1 + |d|..] == rest
  {
    assert ("@" + d + rest)[1..] == d + rest;
    DigitsStop(d, rest);
    AllDigits(d);
  }

  lemma TokenAfterBlank(blank: char, d: string, rest: string, atStart: bool)
    requires IsBlank(blank) && 5 <= |d| && (forall c :: c in d ==> IsDigit(c)) && (rest == [] || !IsDigit(rest[0]))
    ensures Pieces([blank] + "@" + d + rest, atStart) == [Mention([blank], d)] + Pieces(rest, false)
  {
    var s := [blank] + "@" + d + rest;
    TokenFirst(d, rest);
    assert s[1..] == "@" + d + rest;
    assert s[2..] == ("@" + d + rest)[1..] && s[2 + |d|..] == rest;
  }

  // The first piece of a text does not depend on what follows a later blank.
  lemma FirstPieceStops(a: string, tail: string, atStart: bool)
    requires a != [] && tail != [] && IsBlank(tail[0])
    ensures FirstPiece(a + tail, atStart) == FirstPiece(a, atStart)
    ensures FirstLength(a + tail, atStart) == FirstLength(a, atStart)
  {
    assert (a + tail)[1..] == a[1..] + tail;
    TokenStops(a, tail);
    TokenStops(a[1..], tail);
    if atStart && TokenAt(a) {
      DigitsStop(a[1..], tail);
    } else if IsBlank(a[0]) && TokenAt(a[1..]) {
      assert (a + tail)[2..] == a[2..] + tail;
      DigitsStop(a[2..], tail);
    }
  }

  lemma ConsJoins(p: Piece, ps: seq<Piece>, qs: seq<Piece>)
    ensures [p] + (ps + qs) == [p] + ps + qs
  {
  }

  lemma {:induction false} TokenIsCutOut(a: string, blank: char, d: string, rest: string, atStart: bool)
    requires IsBlank(blank) && 5 <= |d| && (forall c :: c in d ==> IsDigit(c)) && (rest == [] || !IsDigit(rest[0]))
    ensures Pieces(a + ([blank] + "@" + d + rest), atStart) ==
            Pieces(a, atStart) + ([Mention([blank], d)] + Pieces(rest, false))
    decreases |a|
  {
    var tail := [blank] + "@" + d + rest;
    if a == [] {
      assert a + tail == tail;
      TokenAfterBlank(blank, d, rest, atStart);
    } else {
      var n := FirstLength(a, atStart);
      FirstPieceStops(a, tail, atStart);
      assert (a + tail)[n..] == a[n..] + tail;
      TokenIsCutOut(a[n..], blank, d, rest, false);
      ConsJoins(FirstPiece(a, atStart), Pieces(a[n..], false), [Mention([blank], d)] + Pieces(rest, false));
    }
  }

  lemma {:induction false} ShownJoins(db: Db, ps: seq<Piece>, qs: seq<Piece>)
    ensures ShownOf(db, ps + qs) == ShownOf(db, ps) + ShownOf(db, qs)
  {
    if ps == [] {
      assert ps + qs == qs;
    } else {
      assert (ps + qs)[1..] == ps[1..] + qs;
      ShownJoins(db, ps[1..], qs);
    }
  }

  // A mention after a blank is shown by its name wherever it stands, and the text around it is rewritten as if it
  // were alone.
  lemma EveryTokenIsNamed(db: Db, a: string, blank: char, d: string, rest: string)
    requires IsBlank(blank) && 5 <= |d| && (forall c :: c in d ==> IsDigit(c)) && (rest == [] || !IsDigit(rest[0]))
    ensures Rewrite(db, a + ([blank] + "@" + d + rest)) ==
            Rewrite(db, a) +
            ([blank] + "@" + (if MentionName(db, d) == "" then d else MentionName(db, d)) +
             ShownOf(db, Pieces(rest, false)))
  {
    TokenIsCutOut(a, blank, d, rest, true);
    ShownJoins(db, Pieces(a, true), [Mention([blank], d)] + Pieces(rest, false));
    ShownConses(db, Mention([blank], d), Pieces(rest, false));
    ShownMention(db, [blank], d);
  }

  lemma ShownConses(db: Db, p: Piece, ps: seq<Piece>)
    ensures ShownOf(db, [p] + ps) == Shown(db, p) + ShownOf(db, ps)
  {
  }

  // So is one at the very start of the text.
  lemma FirstTokenIsNamed(db: Db, d: string, rest: string)
    requires 5 <= |d| && (forall c :: c in d ==> IsDigit(c)) && (rest == [] || !IsDigit(rest[0]))
    ensures Rewrite(db, "@" + d + rest) ==
            "@" + (if MentionName(db, d) == "" then d else MentionName(db, d)) + ShownOf(db, Pieces(rest, false))
  {
    FirstTokenIsCutOut(d, rest);
    ShownConses(db, Mention("", d), Pieces(rest, false));
    ShownMention(db, "", d);
  }

  lemma ShownMention(db: Db, prefix: string, digits: string)
    ensures Shown(db, Mention(prefix, digits)) ==
            prefix + "@" + if MentionName(db, digits) == "" then digits else MentionName(db, digits)
    ensures prefix == "" ==> prefix + "@" == "@"
  {
  }

  lemma FirstTokenIsCutOut(d: string, rest: string)
    requires 5 <= |d| && (forall c :: c in d ==> IsDigit(c)) && (rest == [] || !IsDigit(rest[0]))
    ensures Pieces("@" + d + rest, true) == [Mention("", d)] + Pieces(rest, false)
  {
    TokenFirst(d, rest);
  }

  // Four digits are no token, and neither are five in the middle of a word.
  lemma ShortAndInnerTokensStay(s: string, atStart: bool)
    requires s != [] && (!atStart || |Digits(s[1..])| < 5 || s[0] != '@')
    requires !IsBlank(s[0]) || |s| < 2 || s[1] != '@' || |Digits(s[2..])| < 5
    ensures Pieces(s, atStart) == [Plain(s[0])] + Pieces(s[1..], false)
  {
    assert |s| >= 2 ==> s[1..][1..] == s[2..];
  }

  // Where no token has a name, the text is unchanged.
  lemma {:induction false} UnnamedStay(db: Db, ps: seq<Piece>)
    requires forall p :: p in ps && p.Mention? ==> MentionName(db, p.digits) == ""
    ensures ShownOf(db, ps) == SourceOf(ps)
  {
    if ps != [] {
      UnnamedStay(db, ps[1..]);
    }
  }

  lemma ShownUpTo(db: Db, ps: seq<Piece>, i: nat)
    requires i < |ps|
    ensures ShownOf(db, ps[..i + 1]) == ShownOf(db, ps[..i]) + Shown(db, ps[i])
  {
    ShownJoins(db, ps[..i], [ps[i]]);
    ShownConses(db, ps[i], []);
    assert ps[..i + 1] == ps[..i] + [ps[i]] && [ps[i]] + [] == [ps[i]];
  }

  /* ----- the cache ----- */

  // Whatever is cached, "" for a nameless token included, is what a lookup would say.
  ghost predicate CacheTrue(db: Db, cache: map<string, string>) {
    forall digits :: digits in cache ==> cache[digits] == MentionName(db, digits)
  }

  method ShowPiece(db: Db, p: Piece, cache: map<string, string>) returns (shown: string, filled: map<string, string>)
    requires CacheTrue(db, cache)
    ensures shown == Shown(db, p)
    ensures CacheTrue(db, filled) && cache.Keys <= filled.Keys
  {
    filled := cache;
    if p.Plain? {
      return [p.c], filled;
    }
    if p.digits !in filled {
      filled := filled[p.digits := MentionName(db, p.digits)];
    }
    var name := filled[p.digits];
    shown := if name == "" then p.prefix + "@" + p.digits else p.prefix + "@" + name;
  }

  method ResolveMentions(db: Db, text: string, cache: map<string, string>)
    returns (out: string, filled: map<string, string>)
    requires CacheTrue(db, cache)
    ensures out == Rewrite(db, text)
    ensures CacheTrue(db, filled) && cache.Keys <= filled.Keys
  {
    filled := cache;
    if '@' !in text {
      NoAtNoRewrite(db, text, true);
      return text, filled;
    }
    var pieces := Pieces(text, true);
    out := [];
    for i := 0 to |pieces|
      invariant out == ShownOf(db, pieces[..i])
      invariant CacheTrue(db, filled) && cache.Keys <= filled.Keys
    {
      var shown;
      shown, filled := ShowPiece(db, pieces[i], filled);
      out := out + shown;
      ShownUpTo(db, pieces, i);
    }
    assert pieces[..|pieces|] == pieces;
  }

  // One cache for the whole result set changes nothing: each row reads as if it were rewritten alone.
  method ResolveMentionRows(db: Db, rows: array<MessageRow>)
    modifies rows
    ensures forall i :: 0 <= i < rows.Length ==> rows[i] == old(rows[i]).(text := Rewrite(db, old(rows[i].text)))
  {
    var cache: map<string, string> := map[];
    for i := 0 to rows.Length
      invariant CacheTrue(db, cache)
      invariant forall k :: 0 <= k < i ==> rows[k] == old(rows[k]).(text := Rewrite(db, old(rows[k].text)))
      invariant forall k :: i <= k < rows.Length ==> rows[k] == old(rows[k])
    {
      var text;
      text, cache := ResolveMentions(db, rows[i].text, cache);
      rows[i] := rows[i].(text := text);
    }
  }
}
