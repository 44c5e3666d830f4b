/** The practice configuration form
    (frontend/src/components/ConfigPanel.tsx): the vocabulary text becomes a
    list of words, an empty region becomes "no region", and a tense checkbox
    toggles the tense in the list. */
module ConfigPanel {
  import opened Base
  import opened Strings

  /** What `onStart` receives. */
  datatype ConversationConfig = ConversationConfig(
    targetLanguage: string,
    level: string,
    topic: string,
    vocabulary: seq<string>,
    verbTenses: seq<string>,
    regionVariant: Option<string>)

  /** The form's state. */
  datatype PanelState = PanelState(
    targetLanguage: string,
    level: string,
    topic: string,
    vocabularyText: string,
    verbTenses: seq<string>,
    regionVariant: string)

  /** `.map(word => word.trim()).filter(word => word.length > 0)`. */
  function Clean(pieces: seq<string>): (r: seq<string>)
    ensures |r| <= |pieces|
    ensures forall i :: 0 <= i < |r| ==> r[i] != "" && Trim(r[i]) == r[i]
    decreases |pieces|
  {
    if |pieces| == 0 then []
    else
      var w := Trim(pieces[0]);
      TrimIdempotent(pieces[0]);
      (if w != "" then [w] else []) + Clean(pieces[1..])
  }

  /** The vocabulary `handleStart` sends. */
  function ParseVocabulary(text: string): (r: seq<string>)
    ensures |r| <= |Split(text, ',')|
    ensures forall i :: 0 <= i < |r| ==> r[i] != "" && Trim(r[i]) == r[i]
  {
    Clean(Split(text, ','))
  }

  /** `regionVariant || undefined`. */
  function RegionVariant(s: string): (r: Option<string>)
    ensures r.None? <==> s == ""
    ensures r.Some? ==> r.value == s
  {
    if s == "" then None else Some(s)
  }

  /** `handleStart`: the three text fields and the tenses go through as they
      are. */
  function HandleStart(p: PanelState): (c: ConversationConfig)
    ensures c.targetLanguage == p.targetLanguage && c.level == p.level && c.topic == p.topic
    ensures c.verbTenses == p.verbTenses
    ensures c.vocabulary == ParseVocabulary(p.vocabularyText)
    ensures c.regionVariant == RegionVariant(p.regionVariant)
  {
    ConversationConfig(p.targetLanguage, p.level, p.topic, ParseVocabulary(p.vocabularyText), p.verbTenses,
                       RegionVariant(p.regionVariant))
  }

  /** `prev.filter(t => t !== tense)`. */
  function Without(xs: seq<string>, t: string): (r: seq<string>)
    ensures t !in r
    ensures forall x :: x in r <==> x in xs && x != t
    ensures t !in xs ==> r == xs
    decreases |xs|
  {
    if |xs| == 0 then []
    else (if xs[0] == t then [] else [xs[0]]) + Without(xs[1..], t)
  }

  /** `toggleTense`. */
  function ToggleTense(prev: seq<string>, tense: string): (r: seq<string>)
    ensures tense in r <==> tense !in prev
    ensures forall x :: x != tense ==> (x in r <==> x in prev)
  {
    if tense in prev then Without(prev, tense) else prev + [tense]
  }

  // ---------------------------------------------------------------------------
  // Properties

  /** Cleaning works piece by piece: the words keep the order of their pieces. */
  lemma {:induction false} CleanAppend(a: seq<string>, b: seq<string>)
    ensures Clean(a + b) == Clean(a) + Clean(b)
    decreases |a|
  {
    if |a| > 0 {
      assert (a + b)[1..] == a[1..] + b;
      CleanAppend(a[1..], b);
    } else {
      assert a + b == b;
    }
  }

  /** A piece is dropped exactly when it is blank, and kept trimmed otherwise. */
  lemma CleanPiece(p: string)
    ensures Clean([p]) == (if Trim(p) == "" then [] else [Trim(p)])
  {
    assert [p][1..] == [];
  }

  lemma {:induction false} CleanTrimmed(ps: seq<string>, ws: seq<string>)
    requires |ps| == |ws|
    requires forall i :: 0 <= i < |ws| ==> Trim(ps[i]) == ws[i] && ws[i] != ""
    ensures Clean(ps) == ws
    decreases |ps|
  {
    if |ps| > 0 {
      CleanTrimmed(ps[1..], ws[1..]);
      assert ws == [ws[0]] + ws[1..];
    }
  }

  /** Comma-joined pieces that trim to non-empty words parse back to exactly
      those words, whatever spacing surrounds them. */
  lemma ParseJoined(ps: seq<string>, ws: seq<string>)
    requires |ps| == |ws| >= 1
    requires forall i :: 0 <= i < |ps| ==> ',' !in ps[i]
    requires forall i :: 0 <= i < |ws| ==> Trim(ps[i]) == ws[i] && ws[i] != ""
    ensures ParseVocabulary(Join(",", ps)) == ws
  {
    SplitJoin(ps, ',');
    CleanTrimmed(ps, ws);
  }

  /** Words with no comma and no surrounding blanks survive a round trip
      through the text field. */
  lemma ParseRoundTrip(ws: seq<string>)
    requires |ws| >= 1
    requires forall i :: 0 <= i < |ws| ==> ',' !in ws[i] && ws[i] != "" && Trim(ws[i]) == ws[i]
    ensures ParseVocabulary(Join(",", ws)) == ws
  {
    ParseJoined(ws, ws);
  }

  /** Blank text, or text of only commas and blanks, gives no words. */
  lemma {:induction false} BlankPiecesDropped(ps: seq<string>)
    requires forall i :: 0 <= i < |ps| ==> Trim(ps[i]) == ""
    ensures Clean(ps) == []
    decreases |ps|
  {
    if |ps| > 0 {
      BlankPiecesDropped(ps[1..]);
    }
  }

  /** Filtering keeps the order of the other tenses. */
  lemma {:induction false} WithoutAppend(a: seq<string>, b: seq<string>, t: string)
    ensures Without(a + b, t) == Without(a, t) + Without(b, t)
    decreases |a|
  {
    if |a| > 0 {
      assert (a + b)[1..] == a[1..] + b;
      WithoutAppend(a[1..], b, t);
    } else {
      assert a + b == b;
    }
  }

  /** Toggling an absent tense twice gives the list back. */
  lemma ToggleAbsentTwice(prev: seq<string>, tense: string)
    requires tense !in prev
    ensures ToggleTense(prev, tense) == prev + [tense]
    ensures ToggleTense(ToggleTense(prev, tense), tense) == prev
  {
    WithoutAppend(prev, [tense], tense);
    assert Without([tense], tense) == [] by {
      assert [tense][1..] == [];
    }
  }

  /** Toggling a present tense twice drops its duplicates and moves it to
      the end. */
  lemma TogglePresentTwice(prev: seq<string>, tense: string)
    requires tense in prev
    ensures ToggleTense(prev, tense) == Without(prev, tense)
    ensures ToggleTense(ToggleTense(prev, tense), tense) == Without(prev, tense) + [tense]
  {
  }
}
