/**
 * The allow-list of recipients: how the settings form's text becomes the
 * list, how the list is shown again, and how GET and POST pick a recipient.
 */
module Recipients {
  import opened Wrappers
  import opened Text

  /** What a parsed list entry always is: non-empty, trimmed, comma-free. */
  predicate IsRecipient(x: string)
  {
    x != "" && IsTrimmed(x) && ',' !in x
  }

  /** `[x.strip() for x in pieces if x.strip()]` */
  function Clean(pieces: seq<string>): seq<string>
  {
    if pieces == [] then [] else Kept(pieces[0]) + Clean(pieces[1..])
  }

  /** What one piece contributes: its stripped text, unless that is empty. */
  function Kept(piece: string): seq<string>
  {
    var t := Strip(piece);
    if t == "" then [] else [t]
  }

  /** The settings save: split the text on commas, trim, drop empty pieces. */
  function Parse(text: string): seq<string>
  {
    Clean(Split(text, ','))
  }

  /** Cleaning keeps only non-empty trimmed pieces, and adds no comma. */
  lemma {:induction false} CleanWellFormed(pieces: seq<string>)
    ensures |Clean(pieces)| <= |pieces|
    ensures forall i :: 0 <= i < |Clean(pieces)| ==> Clean(pieces)[i] != "" && IsTrimmed(Clean(pieces)[i])
    ensures (forall i :: 0 <= i < |pieces| ==> ',' !in pieces[i]) ==>
              forall i :: 0 <= i < |Clean(pieces)| ==> ',' !in Clean(pieces)[i]
  {
    if pieces != [] {
      CleanWellFormed(pieces[1..]);
      if ',' !in pieces[0] {
        StripAddsNothing(pieces[0], ',');
      }
    }
  }

  /** Every parsed entry is non-empty, has no surrounding whitespace and no comma. */
  lemma ParseWellFormed(text: string)
    ensures forall i :: 0 <= i < |Parse(text)| ==> IsRecipient(Parse(text)[i])
  {
    CleanWellFormed(Split(text, ','));
  }

  /** The settings page: `ValidRecipients and ', '.join(ValidRecipients) or ''`. */
  function Display(xs: seq<string>): string
  {
    if xs != [] then Join(xs, ", ") else ""
  }

  lemma {:induction false} CleanConcat(a: seq<string>, b: seq<string>)
    ensures Clean(a + b) == Clean(a) + Clean(b)
  {
    if a != [] {
      var h := Kept(a[0]);
      assert (a + b)[0] == a[0];
      assert (a + b)[1..] == a[1..] + b;
      assert Clean(a + b) == h + Clean(a[1..] + b);
      CleanConcat(a[1..], b);
      assert h + (Clean(a[1..]) + Clean(b)) == (h + Clean(a[1..])) + Clean(b);
    } else {
      assert a + b == b;
    }
  }

  /**
   * Parsing keeps the left-to-right order: the entries of a text joined by a
   * comma are the entries of the left part followed by those of the right.
   */
  lemma ParseConcat(a: string, b: string)
    ensures Parse(a + "," + b) == Parse(a) + Parse(b)
  {
    SplitConcat(a, ',', b);
    CleanConcat(Split(a, ','), Split(b, ','));
  }

  /** A text without a comma is at most one entry: its stripped self. */
  lemma ParseWithoutComma(s: string)
    requires ',' !in s
    ensures Parse(s) == if Strip(s) == "" then [] else [Strip(s)]
  {
    SplitWithout(s, ',');
    assert [s][1..] == [];
    assert Clean([s]) == Kept(s) + [];
  }

  /** A space after a comma does not change the entries. */
  lemma ParseLeadingSpace(s: string)
    ensures Parse(" " + s) == Parse(s)
  {
    var pieces := Split(s, ',');
    assert (" " + s)[1..] == s;
    assert Split(" " + s, ',') == [" " + pieces[0]] + pieces[1..];
    StripLeadingSpace(' ', pieces[0]);
    CleanConcat([" " + pieces[0]], pieces[1..]);
    CleanConcat([pieces[0]], pieces[1..]);
    assert [pieces[0]] + pieces[1..] == pieces;
  }

  /**
   * Showing a list of well-formed entries and saving the shown text
   * unchanged gives the same list back.
   */
  lemma {:induction false} DisplayParse(xs: seq<string>)
    requires forall i :: 0 <= i < |xs| ==> IsRecipient(xs[i])
    ensures Parse(Display(xs)) == xs
  {
    if xs == [] {
      ParseEmpty();
    } else if |xs| == 1 {
      ParseOne(xs[0]);
    } else {
      DisplayParse(xs[1..]);
      DisplayCons(xs);
    }
  }

  lemma ParseEmpty()
    ensures Parse("") == []
  {
    ParseWithoutComma("");
  }

  lemma ParseOne(x: string)
    requires IsRecipient(x)
    ensures Parse(x) == [x]
  {
    ParseWithoutComma(x);
    StripTrimmed(x);
  }

  lemma DisplayCons(xs: seq<string>)
    requires |xs| >= 2 && IsRecipient(xs[0])
    requires Parse(Display(xs[1..])) == xs[1..]
    ensures Parse(Display(xs)) == xs
  {
    var x, rest := xs[0], xs[1..];
    var tail := Join(rest, ", ");
    assert Display(rest) == tail;
    assert Parse(Display(xs)) == Parse(x) + Parse(" " + tail) by {
      DisplayShape(xs);
      ParseConcat(x, " " + tail);
    }
    assert Parse(x) == [x] by {
      ParseOne(x);
    }
    assert Parse(" " + tail) == Parse(tail) by {
      ParseLeadingSpace(tail);
    }
    HeadTail(xs);
  }

  /** The list equals its head followed by its tail. */
  lemma HeadTail<T>(xs: seq<T>)
    requires xs != []
    ensures [xs[0]] + xs[1..] == xs
  {
  }

  lemma DisplayShape(xs: seq<string>)
    requires |xs| >= 2
    ensures Display(xs) == xs[0] + "," + (" " + Join(xs[1..], ", "))
  {
    var tail := Join(xs[1..], ", ");
    assert Display(xs) == xs[0] + ", " + tail;
    assert xs[0] + ", " + tail == xs[0] + "," + (" " + tail);
  }

  /** A parsed list is a fixed point of showing and saving again. */
  lemma ParseStable(text: string)
    ensures Parse(Display(Parse(text))) == Parse(text)
  {
    ParseWellFormed(text);
    DisplayParse(Parse(text));
  }

  /**
   * POST: the requested `to` when it is on the allow-list, otherwise the
   * first entry; `None` where `ValidRecipients[0]` raises on an empty list.
   */
  function PostRecipient(to: string, allowed: seq<string>): (r: Option<string>)
    ensures r.Some? <==> allowed != []
    ensures r.Some? ==> r.value in allowed
    ensures to != "" && to in allowed ==> r == Some(to)
    ensures !(to != "" && to in allowed) && allowed != [] ==> r == Some(allowed[0])
  {
    if to != "" && to in allowed then Some(to)
    else if allowed == [] then None
    else Some(allowed[0])
  }

  /**
   * GET: the requested `to` unchecked, otherwise the first entry; `None`
   * where `ValidRecipients[0]` raises.
   */
  function GetRecipient(to: string, allowed: seq<string>): (r: Option<string>)
    ensures r.None? <==> to == "" && allowed == []
    ensures to != "" ==> r == Some(to)
    ensures to == "" && allowed != [] ==> r == Some(allowed[0])
  {
    if to != "" then Some(to)
    else if allowed == [] then None
    else Some(allowed[0])
  }

  /**
   * The two choices agree exactly when GET's choice is on the allow-list;
   * a `to` off the list passes GET but is replaced on POST.
   */
  lemma GetPostAgree(to: string, allowed: seq<string>)
    ensures GetRecipient(to, allowed).Some? && GetRecipient(to, allowed).value in allowed
            <==> GetRecipient(to, allowed) == PostRecipient(to, allowed) && allowed != []
  {
  }
}
