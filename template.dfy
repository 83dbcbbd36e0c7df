/** The per-recipient template substitution of the bulk sender: the template's
    `{{name}}` and `{{email}}` placeholders, then one placeholder per metadata
    entry, each replaced globally by a literal replace-all run on the previous
    step's output. Beside it, a reference meaning of a template made of text and
    placeholders, and the proof that the two agree when no brace is in play. */
module Template {
  import opened Schema

  predicate StartsWith(s: string, p: string)
  {
    |p| <= |s| && s[..|p|] == p
  }

  /** `p` occurs in `s` at some position. */
  predicate Occurs(s: string, p: string)
  {
    exists i :: 0 <= i <= |s| && StartsWith(s[i..], p)
  }

  /** Every occurrence of `pat`, found left to right without overlap, replaced by
      `rep`; the text `rep` brings in is not searched again (a global regular
      expression replace on a literal pattern). */
  function ReplaceAll(s: string, pat: string, rep: string): string
    requires |pat| > 0
    decreases |s|
  {
    if |s| == 0 then ""
    else if StartsWith(s, pat) then rep + ReplaceAll(s[|pat|..], pat, rep)
    else [s[0]] + ReplaceAll(s[1..], pat, rep)
  }

  function Token(key: string): string
  {
    "{{" + key + "}}"
  }

  /** What replaces `{{name}}`: the name, or the empty string when it is absent
      (an empty name is its own replacement). */
  function NameText(name: Option<string>): string
  {
    match name
    case None => ""
    case Some(n) => n
  }

  /** The metadata pass: one replace-all per entry, in entry order, each on the
      output of the previous one. */
  function ApplyEntries(html: string, entries: Entries): string
    decreases |entries|
  {
    if |entries| == 0 then html
    else ApplyEntries(ReplaceAll(html, Token(entries[0].0), entries[0].1), entries[1..])
  }

  /** The HTML body sent to recipient `r`. */
  function Render(template: string, r: Recipient): string
  {
    var html := ReplaceAll(ReplaceAll(template, Token("name"), NameText(r.name)), Token("email"), r.email);
    match r.metadata
    case None => html
    case Some(m) => ApplyEntries(html, m)
  }

  // ---------------------------------------------------------------------------
  // Replace-all

  /** A text without any occurrence of the pattern comes back unchanged. */
  lemma {:induction false} ReplaceAbsent(s: string, pat: string, rep: string)
    requires |pat| > 0
    requires !Occurs(s, pat)
    ensures ReplaceAll(s, pat, rep) == s
    decreases |s|
  {
    if |s| > 0 {
      assert s[0..] == s;
      assert !StartsWith(s, pat);
      forall i | 0 <= i <= |s[1..]| ensures !StartsWith(s[1..][i..], pat) {
        assert s[1..][i..] == s[i + 1..];
      }
      ReplaceAbsent(s[1..], pat, rep);
    }
  }

  /** Replacing a pattern by itself is the identity. */
  lemma {:induction false} ReplaceBySelf(s: string, pat: string)
    requires |pat| > 0
    ensures ReplaceAll(s, pat, pat) == s
    decreases |s|
  {
    if |s| > 0 {
      if StartsWith(s, pat) {
        ReplaceBySelf(s[|pat|..], pat);
        assert s == s[..|pat|] + s[|pat|..];
      } else {
        ReplaceBySelf(s[1..], pat);
        assert s == [s[0]] + s[1..];
      }
    }
  }

  /** When no match starts among the first `n` characters, they are copied over
      and the scan resumes at position `n`. */
  lemma {:induction false} SkipUnmatched(s: string, n: nat, pat: string, rep: string)
    requires |pat| > 0 && n <= |s|
    requires forall i :: 0 <= i < n ==> !StartsWith(s[i..], pat)
    ensures ReplaceAll(s, pat, rep) == s[..n] + ReplaceAll(s[n..], pat, rep)
    decreases n
  {
    if n > 0 {
      assert s[0..] == s;
      assert !StartsWith(s, pat);
      forall i | 0 <= i < n - 1 ensures !StartsWith(s[1..][i..], pat) {
        assert s[1..][i..] == s[i + 1..];
      }
      SkipUnmatched(s[1..], n - 1, pat, rep);
      assert s[1..][..n - 1] == s[1..n];
      assert s[1..][n - 1..] == s[n..];
      assert s[..n] == [s[0]] + s[1..n];
    }
  }

  // ---------------------------------------------------------------------------
  // Templates as text and placeholders

  datatype Piece = Text(text: string) | Hole(key: string)

  predicate BraceFree(s: string)
  {
    forall i :: 0 <= i < |s| ==> s[i] != '{' && s[i] != '}'
  }

  /** The characters a piece is made of, apart from a placeholder's braces. */
  function Body(p: Piece): string
  {
    match p
    case Text(t) => t
    case Hole(k) => k
  }

  /** Every text piece and every placeholder key is free of braces. */
  predicate WellFormed(ps: seq<Piece>)
  {
    forall i :: 0 <= i < |ps| ==> BraceFree(Body(ps[i]))
  }

  function Spell(p: Piece): string
  {
    match p
    case Text(t) => t
    case Hole(k) => Token(k)
  }

  /** The template text the pieces spell. */
  function Flatten(ps: seq<Piece>): string
  {
    if |ps| == 0 then "" else Spell(ps[0]) + Flatten(ps[1..])
  }

  /** The value a placeholder stands for: the name (empty when absent), the
      email, or the first metadata entry of that key; None when nothing binds it. */
  function Resolve(key: string, r: Recipient): Option<string>
  {
    if key == "name" then Some(NameText(r.name))
    else if key == "email" then Some(r.email)
    else match r.metadata
      case None => None
      case Some(m) => Lookup(m, key)
  }

  function FillPiece(p: Piece, r: Recipient): string
  {
    match p
    case Text(t) => t
    case Hole(k) =>
      match Resolve(k, r)
      case Some(v) => v
      case None => Token(k)
  }

  /** Reference meaning of a template: each placeholder replaced by its value in
      one pass, an unbound placeholder kept verbatim. */
  function Fill(ps: seq<Piece>, r: Recipient): string
  {
    if |ps| == 0 then "" else FillPiece(ps[0], r) + Fill(ps[1..], r)
  }

  /** The values substituted for `r` hold no brace. */
  predicate PlainValues(r: Recipient)
  {
    && BraceFree(NameText(r.name))
    && BraceFree(r.email)
    && (r.metadata.Some? ==>
          forall i :: 0 <= i < |r.metadata.value| ==>
            BraceFree(r.metadata.value[i].0) && BraceFree(r.metadata.value[i].1))
  }

  function SubstPiece(p: Piece, key: string, value: string): Piece
  {
    if p == Hole(key) then Text(value) else p
  }

  /** One substitution step on the piece level. */
  function Subst(ps: seq<Piece>, key: string, value: string): (qs: seq<Piece>)
    ensures |qs| == |ps|
    ensures forall i :: 0 <= i < |ps| ==> qs[i] == SubstPiece(ps[i], key, value)
  {
    if |ps| == 0 then [] else [SubstPiece(ps[0], key, value)] + Subst(ps[1..], key, value)
  }

  function PieceAfterEntries(p: Piece, entries: Entries): Piece
    decreases |entries|
  {
    if |entries| == 0 then p
    else PieceAfterEntries(SubstPiece(p, entries[0].0, entries[0].1), entries[1..])
  }

  /** The metadata pass on the piece level. */
  function SubstEntries(ps: seq<Piece>, entries: Entries): (qs: seq<Piece>)
    ensures |qs| == |ps|
    ensures forall i :: 0 <= i < |ps| ==> qs[i] == PieceAfterEntries(ps[i], entries)
    decreases |entries|
  {
    if |entries| == 0 then ps
    else SubstEntries(Subst(ps, entries[0].0, entries[0].1), entries[1..])
  }

  /** Inside a placeholder `{{k}}` no other brace-free placeholder can start. */
  lemma NoMatchInToken(k: string, key: string, rest: string, i: nat)
    requires BraceFree(k) && BraceFree(key) && k != key
    requires i < |Token(k)|
    ensures !StartsWith((Token(k) + rest)[i..], Token(key))
  {
    var s, pat := Token(k) + rest, Token(key);
    if i == 0 {
      assert s[0..] == s;
      assert |s| >= |k| + 4 && |pat| == |key| + 4;
      if |k| == |key| {
        assert exists j :: 0 <= j < |k| && k[j] != key[j];
        var j :| 0 <= j < |k| && k[j] != key[j];
        assert s[2 + j] == k[j] && pat[2 + j] == key[j];
      } else if |k| < |key| {
        assert s[2 + |k|] == '}' && pat[2 + |k|] == key[|k|];
      } else {
        assert pat[2 + |key|] == '}' && s[2 + |key|] == k[|key|];
      }
    } else if i == 1 {
      assert s[2] == if |k| > 0 then k[0] else '}';
      assert s[1..][1] == s[2];
    } else {
      assert s[i] == if i - 2 < |k| then k[i - 2] else '}';
      assert s[i..][0] == s[i];
    }
  }

  /** One replace-all pass over a well-formed template replaces exactly the
      placeholders with that key. */
  lemma {:induction false} ReplaceOnPieces(ps: seq<Piece>, key: string, value: string)
    requires WellFormed(ps) && BraceFree(key)
    ensures ReplaceAll(Flatten(ps), Token(key), value) == Flatten(Subst(ps, key, value))
  {
    if |ps| > 0 {
      var pat, rest := Token(key), Flatten(ps[1..]);
      assert WellFormed(ps[1..]) by {
        forall i | 0 <= i < |ps[1..]| ensures BraceFree(Body(ps[1..][i])) {
          assert ps[1..][i] == ps[i + 1];
        }
      }
      ReplaceOnPieces(ps[1..], key, value);
      var s := Spell(ps[0]) + rest;
      assert BraceFree(Body(ps[0]));
      match ps[0]
      case Text(t) =>
        forall i | 0 <= i < |t| ensures !StartsWith(s[i..], pat) {
          assert s[i..][0] == t[i];
        }
        SkipUnmatched(s, |t|, pat, value);
        assert s[..|t|] == t && s[|t|..] == rest;
      case Hole(k) =>
        if k == key {
          assert StartsWith(s, pat);
          assert s[|pat|..] == rest;
        } else {
          forall i | 0 <= i < |Token(k)| ensures !StartsWith(s[i..], pat) {
            NoMatchInToken(k, key, rest, i);
          }
          SkipUnmatched(s, |Token(k)|, pat, value);
          assert s[..|Token(k)|] == Token(k) && s[|Token(k)|..] == rest;
        }
    }
  }

  lemma SubstWellFormed(ps: seq<Piece>, key: string, value: string)
    requires WellFormed(ps) && BraceFree(value)
    ensures WellFormed(Subst(ps, key, value))
  {
    var qs := Subst(ps, key, value);
    forall i | 0 <= i < |qs| ensures BraceFree(Body(qs[i])) {
      assert BraceFree(Body(ps[i]));
    }
  }

  /** The metadata pass over a well-formed template, on the piece level. */
  lemma {:induction false} EntriesOnPieces(ps: seq<Piece>, m: Entries)
    requires WellFormed(ps)
    requires forall i :: 0 <= i < |m| ==> BraceFree(m[i].0) && BraceFree(m[i].1)
    ensures ApplyEntries(Flatten(ps), m) == Flatten(SubstEntries(ps, m))
    decreases |m|
  {
    if |m| > 0 {
      ReplaceOnPieces(ps, m[0].0, m[0].1);
      SubstWellFormed(ps, m[0].0, m[0].1);
      assert forall i :: 0 <= i < |m[1..]| ==> m[1..][i] == m[i + 1];
      EntriesOnPieces(Subst(ps, m[0].0, m[0].1), m[1..]);
    }
  }

  /** A placeholder left by the name and email passes meets its first entry. */
  lemma {:induction false} HoleAfterEntries(k: string, m: Entries)
    ensures PieceAfterEntries(Hole(k), m) == match Lookup(m, k)
                                             case Some(v) => Text(v)
                                             case None => Hole(k)
    decreases |m|
  {
    if |m| > 0 {
      if m[0].0 == k {
        TextAfterEntries(m[0].1, m[1..]);
      } else {
        HoleAfterEntries(k, m[1..]);
      }
    }
  }

  lemma {:induction false} TextAfterEntries(t: string, m: Entries)
    ensures PieceAfterEntries(Text(t), m) == Text(t)
    decreases |m|
  {
    if |m| > 0 {
      TextAfterEntries(t, m[1..]);
    }
  }

  lemma {:induction false} FlattenFills(qs: seq<Piece>, ps: seq<Piece>, r: Recipient)
    requires |qs| == |ps|
    requires forall i :: 0 <= i < |ps| ==> Spell(qs[i]) == FillPiece(ps[i], r)
    ensures Flatten(qs) == Fill(ps, r)
  {
    if |ps| > 0 {
      FlattenFills(qs[1..], ps[1..], r);
    }
  }

  /** Rendering a template made of brace-free text and placeholders, for a
      recipient whose values hold no brace, replaces every placeholder with a
      binding by its value in a single pass and leaves the others verbatim. */
  lemma RenderFills(ps: seq<Piece>, r: Recipient)
    requires WellFormed(ps) && PlainValues(r)
    ensures Render(Flatten(ps), r) == Fill(ps, r)
  {
    var nt := NameText(r.name);
    var ps1 := Subst(ps, "name", nt);
    ReplaceOnPieces(ps, "name", nt);
    SubstWellFormed(ps, "name", nt);
    var ps2 := Subst(ps1, "email", r.email);
    ReplaceOnPieces(ps1, "email", r.email);
    SubstWellFormed(ps1, "email", r.email);
    var m := MetadataOf(r);
    var ps3 := SubstEntries(ps2, m);
    if r.metadata.Some? {
      EntriesOnPieces(ps2, m);
    }
    assert Render(Flatten(ps), r) == Flatten(ps3);
    forall i | 0 <= i < |ps| ensures Spell(ps3[i]) == FillPiece(ps[i], r) {
      PieceFills(ps[i], r);
    }
    FlattenFills(ps3, ps, r);
  }

  function MetadataOf(r: Recipient): Entries
  {
    if r.metadata.Some? then r.metadata.value else []
  }

  /** One piece through the name, email and metadata passes ends as its
      reference value. */
  lemma PieceFills(p: Piece, r: Recipient)
    ensures Spell(PieceAfterEntries(SubstPiece(SubstPiece(p, "name", NameText(r.name)), "email", r.email), MetadataOf(r)))
         == FillPiece(p, r)
  {
    var m := MetadataOf(r);
    match p
    case Text(t) =>
      TextAfterEntries(t, m);
    case Hole(k) =>
      if k == "name" {
        TextAfterEntries(NameText(r.name), m);
      } else if k == "email" {
        TextAfterEntries(r.email, m);
      } else {
        HoleAfterEntries(k, m);
      }
  }

  // ---------------------------------------------------------------------------
  // Consequences and examples

  lemma TokenStartsWithBraces(s: string, key: string)
    requires StartsWith(s, Token(key))
    ensures StartsWith(s, "{{")
  {
    assert s[..2] == Token(key)[..2];
  }

  lemma {:induction false} EntriesKeepText(t: string, m: Entries)
    requires !Occurs(t, "{{")
    ensures ApplyEntries(t, m) == t
    decreases |m|
  {
    if |m| > 0 {
      NoTokenWithoutBraces(t, m[0].0);
      ReplaceAbsent(t, Token(m[0].0), m[0].1);
      EntriesKeepText(t, m[1..]);
    }
  }

  lemma NoTokenWithoutBraces(t: string, key: string)
    requires !Occurs(t, "{{")
    ensures !Occurs(t, Token(key))
  {
    forall i | 0 <= i <= |t| ensures !StartsWith(t[i..], Token(key)) {
      if StartsWith(t[i..], Token(key)) {
        TokenStartsWithBraces(t[i..], key);
      }
    }
  }

  /** A template with no `{{` renders to itself, whoever the recipient is. */
  lemma RenderWithoutPlaceholders(t: string, r: Recipient)
    requires !Occurs(t, "{{")
    ensures Render(t, r) == t
  {
    NoTokenWithoutBraces(t, "name");
    ReplaceAbsent(t, Token("name"), NameText(r.name));
    NoTokenWithoutBraces(t, "email");
    ReplaceAbsent(t, Token("email"), r.email);
    if r.metadata.Some? {
      EntriesKeepText(t, r.metadata.value);
    }
  }

  function Sample(name: Option<string>, email: string, metadata: Option<Entries>): Recipient
  {
    Recipient(0, email, name, metadata, 0, PENDING, None, None, 0)
  }

  function Greeting(): seq<Piece>
  {
    [Text("Hi "), Hole("name"), Text(", id="), Hole("id")]
  }

  function Ann(): Recipient
  {
    Sample(Some("Ann"), "ann@example.com", Some([("id", "42")]))
  }

  lemma GreetingIsPlain()
    ensures WellFormed(Greeting()) && PlainValues(Ann())
  {
    var ps := Greeting();
    assert Body(ps[0]) == "Hi " && Body(ps[1]) == "name" && Body(ps[2]) == ", id=" && Body(ps[3]) == "id";
    assert BraceFree("Hi ") && BraceFree("name") && BraceFree(", id=") && BraceFree("id");
    assert BraceFree("Ann") && BraceFree("ann@example.com") && BraceFree("42");
  }

  lemma GreetingFills()
    ensures Fill(Greeting(), Ann()) == "Hi Ann, id=42"
  {
    var ps := Greeting();
    assert Lookup([("id", "42")], "id") == Some("42");
    assert Fill(ps[3..], Ann()) == "42";
    assert Fill(ps[2..], Ann()) == ", id=42";
    assert Fill(ps[1..], Ann()) == "Ann, id=42";
  }

  /** The template `Hi {{name}}, id={{id}}` for Ann with metadata id = 42. */
  lemma GreetingExample()
    ensures Render(Flatten(Greeting()), Ann()) == "Hi Ann, id=42"
  {
    GreetingIsPlain();
    GreetingFills();
    RenderFills(Greeting(), Ann());
  }

  /** The passes run one after another, so a name that is itself a placeholder
      is substituted again by the email pass. */
  lemma NameIsRescanned()
    ensures Render("{{name}}", Sample(Some("{{email}}"), "ann@example.com", None)) == "ann@example.com"
  {
    var r := Sample(Some("{{email}}"), "ann@example.com", None);
    assert StartsWith("{{name}}", Token("name"));
    assert ReplaceAll("{{name}}", Token("name"), "{{email}}") == "{{email}}";
    assert StartsWith("{{email}}", Token("email"));
    assert ReplaceAll("{{email}}", Token("email"), r.email) == r.email;
  }

  /** Removing one placeholder can join the text around it into another: a
      placeholder can survive rendering although its key is bound. */
  lemma PlaceholderReforms()
    ensures Render("{{{{name}}name}}", Sample(None, "ann@example.com", None)) == "{{name}}"
  {
    ReformsNamePass();
    assert !Occurs("{{name}}", Token("email")) by {
      forall i | 0 <= i <= 8 ensures !StartsWith("{{name}}"[i..], Token("email")) {
        assert |"{{name}}"[i..]| < |Token("email")|;
      }
    }
    ReplaceAbsent("{{name}}", Token("email"), "ann@example.com");
  }

  lemma ReformsNamePass()
    ensures ReplaceAll("{{{{name}}name}}", Token("name"), "") == "{{name}}"
  {
    ReformsPrefix();
    SkipUnmatched("{{{{name}}name}}", 2, Token("name"), "");
    ReformsInner();
    ReformsJoin();
  }

  lemma ReformsPrefix()
    ensures forall i :: 0 <= i < 2 ==> !StartsWith("{{{{name}}name}}"[i..], Token("name"))
    ensures "{{{{name}}name}}"[..2] == "{{" && "{{{{name}}name}}"[2..] == "{{name}}name}}"
  {
    var t := Token("name");
    var s := "{{{{name}}name}}";
    assert s[0..][2] != t[2] && s[1..][2] != t[2];
  }

  lemma ReformsJoin()
    ensures "{{" + "name}}" == "{{name}}"
  {
    var a := "{{" + "name}}";
    assert |a| == 8;
    assert forall i :: 0 <= i < 8 ==> a[i] == "{{name}}"[i];
  }

  lemma ReformsInner()
    ensures ReplaceAll("{{name}}name}}", Token("name"), "") == "name}}"
  {
    var t := Token("name");
    var tail, mid := "name}}", "{{name}}name}}";
    assert !Occurs(tail, t) by {
      forall i | 0 <= i <= |tail| ensures !StartsWith(tail[i..], t) {
        assert |tail[i..]| < |t|;
      }
    }
    ReplaceAbsent(tail, t, "");
    assert StartsWith(mid, t) && mid[|t|..] == tail;
  }
}
