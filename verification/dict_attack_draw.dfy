/** What the dictionary-attack screen shows for a view model, with the
    canvas, fonts and text formatting stripped away: every "a/b" text is a
    pair of numbers, the progress bar's fill is an exact quotient. */
module DictAttackDraw {
  import opened Ints
  import opened MfClassicPoller
  import opened Progress
  import opened DictAttackModel
  import opened DictAttackHeader

  /** The line under the header. */
  datatype Status =
    | CollectingFrom(sector: u8)  // "Collecting from sector: %d"
    | ReuseKeyCheck(sector: u8)   // "Reuse key check for sector: %d"
    | Unlocking(sector: u8)       // "Unlocking sector: %d"

  /** A "shown/total" text. */
  datatype Label = Label(shown: nat, total: nat)

  /** The progress bar: its fill and the text drawn on it. */
  datatype Bar = Bar(text: Label, value: Quotient)

  datatype Screen =
    | LostTag(title: string, hint: string)
    | Attack(header: string, status: Status, bar: Bar, keysFound: Label, sectorsRead: Label)

  /** One draw: what is shown, and the model as the draw leaves it. */
  datatype Frame = Frame(screen: Screen, after: ViewModel)

  const LostTagTitle := "Lost the tag!"
  const LostTagHint := "Make sure the tag is\npositioned correctly."

  /** Number of distinct most-significant nonce bytes the hardnested
      collection aims for. */
  const MaxMsb: nat := 0x100

  /** Phases whose bar shows the nested dictionary attack's sector. */
  predicate NestedDictPhase(p: NestedPhase)
  {
    p == NestedPhase.AnalyzePrng || p == NestedPhase.DictAttack
    || p == NestedPhase.DictAttackVerify || p == NestedPhase.DictAttackResume
  }

  /** Phases whose bar shows nonce collection. */
  predicate CollectionPhase(p: NestedPhase)
  {
    p == NestedPhase.Calibrate || p == NestedPhase.Recalibrate || p == NestedPhase.CollectNtEnc
  }

  /** The remaining phases (`None`, `Finished`): the bar shows the plain
      dictionary cursor. */
  predicate DictionaryPhase(p: NestedPhase)
  {
    !NestedDictPhase(p) && !CollectionPhase(p)
  }

  /** The sector nonces are collected from: two nested target keys per
      sector, four with a weak PRNG; stored in a `uint8_t`. */
  function NonceSector(m: ViewModel): u8
  {
    ToU8(m.nestedTargetKey / (if m.prngType == PrngType.Weak then 4 else 2))
  }

  /** The sector of the nested dictionary attack: two target keys per
      sector with a weak PRNG, sixteen otherwise; stored in a `uint8_t`. */
  function NestedTargetSector(m: ViewModel): u8
  {
    ToU8(m.nestedTargetKey / (if m.prngType == PrngType.Weak then 2 else 16))
  }

  /** The sector of the weak-PRNG nonce collection; stored in a `uint8_t`. */
  function CollectTargetSector(m: ViewModel): u8
  {
    ToU8(m.nestedTargetKey / 4)
  }

  /** The status line: nonce collection first, then a running key-reuse
      check, else the sector being unlocked. */
  function StatusLine(m: ViewModel): (s: Status)
    ensures s.CollectingFrom? <==> m.nestedPhase == NestedPhase.CollectNtEnc
    ensures s.ReuseKeyCheck? <==> m.nestedPhase != NestedPhase.CollectNtEnc && m.isKeyAttack
    ensures s.CollectingFrom? ==> s.sector == NonceSector(m)
    ensures s.ReuseKeyCheck? ==> s.sector == m.keyAttackCurrentSector
    ensures s.Unlocking? ==> s.sector == m.currentSector
  {
    if m.nestedPhase == NestedPhase.CollectNtEnc then CollectingFrom(NonceSector(m))
    else if m.isKeyAttack then ReuseKeyCheck(m.keyAttackCurrentSector)
    else Unlocking(m.currentSector)
  }

  /** The progress bar before the clamp. */
  function RawBar(m: ViewModel): Bar
  {
    if NestedDictPhase(m.nestedPhase) then
      var t := NestedTargetSector(m);
      Bar(Label(t, m.sectorsTotal), Divide(t, m.sectorsTotal))
    else if CollectionPhase(m.nestedPhase) then
      if m.prngType == PrngType.Weak then
        var t := CollectTargetSector(m);
        Bar(Label(t, m.sectorsTotal), Divide(t, m.sectorsTotal))
      else
        Bar(Label(m.msbCount, MaxMsb), Divide(m.msbCount, MaxMsb))
    else
      Bar(Label(if m.dictKeysCurrent == 0 then 1 else m.dictKeysCurrent, m.dictKeysTotal),
          if m.dictKeysTotal == 0 then Zero else Divide(m.dictKeysCurrent, m.dictKeysTotal))
  }

  /** The progress bar as drawn. */
  function ProgressBar(m: ViewModel): (b: Bar)
    // the fill is a fraction in [0, 1], or NaN from 0/0
    ensures !b.value.NotANumber? ==> InUnitRange(b.value)
    ensures b.value.NotANumber? <==>
      !DictionaryPhase(m.nestedPhase) && b.text.total == 0 && b.text.shown == 0
    // the fill agrees with the text, clamped, except for the dictionary's 1/total rule
    ensures b.text.total > 0 && !(DictionaryPhase(m.nestedPhase) && m.dictKeysCurrent == 0)
      ==> b.value == Clamp(Ratio(b.text.shown, b.text.total))
    ensures !DictionaryPhase(m.nestedPhase) && b.text.total == 0 && b.text.shown > 0
      ==> b.value == One
    // what the text counts in each group of phases
    ensures NestedDictPhase(m.nestedPhase) ==> b.text == Label(NestedTargetSector(m), m.sectorsTotal)
    ensures CollectionPhase(m.nestedPhase) && m.prngType == PrngType.Weak
      ==> b.text == Label(CollectTargetSector(m), m.sectorsTotal)
    ensures CollectionPhase(m.nestedPhase) && m.prngType != PrngType.Weak
      ==> b.text == Label(m.msbCount, MaxMsb)
    ensures DictionaryPhase(m.nestedPhase) ==> b.text.total == m.dictKeysTotal
    ensures DictionaryPhase(m.nestedPhase) && m.dictKeysCurrent > 0
      ==> b.text.shown == m.dictKeysCurrent
    // the dictionary text never shows 0 tried keys, while its fill starts at 0
    ensures DictionaryPhase(m.nestedPhase) && m.dictKeysCurrent == 0
      ==> b.text.shown == 1 && IsZero(b.value)
    ensures DictionaryPhase(m.nestedPhase) && m.dictKeysTotal == 0 ==> IsZero(b.value)
  {
    var raw := RawBar(m);
    Bar(raw.text, Clamp(raw.value))
  }

  /** The model as a draw leaves it: only the header can change, and only
      while the tag is present. */
  function Redrawn(m: ViewModel): (r: ViewModel)
    ensures OnlyChanged(m, r, {Header})
    ensures !m.cardDetected ==> r == m
    ensures m.cardDetected ==> r.header == HeaderReference(m)
  {
    if m.cardDetected then
      HeaderMatchesReference(m);
      m.(header := NextHeader(m))
    else m
  }

  /** `dict_attack_draw_callback`. */
  function Draw(m: ViewModel): (f: Frame)
    ensures f.after == Redrawn(m)
    ensures f.screen.LostTag? <==> !m.cardDetected
    ensures !m.cardDetected ==> f.screen == LostTag(LostTagTitle, LostTagHint)
    ensures f.screen.Attack? ==> f.screen.header == f.after.header
    ensures f.screen.Attack? ==>
      && f.screen.status == StatusLine(m)
      && f.screen.bar == ProgressBar(m)
      && f.screen.keysFound == Label(m.keysFound, m.sectorsTotal * KeysPerSector)
      && f.screen.sectorsRead == Label(m.sectorsRead, m.sectorsTotal)
  {
    var after := Redrawn(m);
    if !m.cardDetected then
      Frame(LostTag(LostTagTitle, LostTagHint), after)
    else
      Frame(
        Attack(after.header, StatusLine(m), ProgressBar(m),
               Label(m.keysFound, m.sectorsTotal * KeysPerSector),
               Label(m.sectorsRead, m.sectorsTotal)),
        after)
  }

  /** Drawing the same model again shows the same screen and leaves the
      same model exactly when the tag is lost, the draw replaces the
      header, or there is no suffix to append. */
  lemma {:induction false} RedrawIdempotent(m: ViewModel)
    ensures Draw(Draw(m).after) == Draw(m) <==>
      (!m.cardDetected || Overwrites(m) || Suffix(m) == "")
  {
  }

  /** The model after `n` draws of `m` with no setter call in between. */
  function Redraws(m: ViewModel, n: nat): ViewModel
    decreases n
  {
    if n == 0 then m else Redrawn(Redraws(m, n - 1))
  }

  function Repeat(s: string, n: nat): string
    decreases n
  {
    if n == 0 then "" else Repeat(s, n - 1) + s
  }

  lemma {:induction false} RepeatLength(s: string, n: nat)
    ensures |Repeat(s, n)| == n * |s|
    decreases n
  {
    if n > 0 {
      RepeatLength(s, n - 1);
    }
  }

  /** In `None` or `Finished` without a backdoor header, every draw appends
      the suffix once more: after `n` draws the header carries `n` copies of
      it and nothing else has changed. */
  lemma {:induction false} RedrawsAccumulate(m: ViewModel, n: nat)
    requires m.cardDetected && !Overwrites(m)
    ensures Redraws(m, n) == m.(header := m.header + Repeat(Suffix(m), n))
    decreases n
  {
    if n == 0 {
      assert m.header + "" == m.header;
    } else {
      RedrawsAccumulate(m, n - 1);
      AppendAgain(m, Repeat(Suffix(m), n - 1));
    }
  }

  /** Drawing a model whose header already carries `t` after the original
      appends the suffix after `t`. */
  lemma AppendAgain(m: ViewModel, t: string)
    requires m.cardDetected && !Overwrites(m)
    ensures Redrawn(m.(header := m.header + t)) == m.(header := m.header + (t + Suffix(m)))
  {
  }

  /** With a hard PRNG in `Finished`, the header grows by " (Hard)" on
      every draw, without bound. */
  lemma HeaderGrowsWhenFinishedHard(m: ViewModel, n: nat)
    requires m.cardDetected && m.nestedPhase == NestedPhase.Finished && m.prngType == PrngType.Hard
    ensures |Redraws(m, n).header| >= |m.header| + n * |HardTag|
  {
    RedrawsAccumulate(m, n);
    RepeatLength(Suffix(m), n);
  }

  /** In a phase with a title, one draw settles the model: any further
      draws leave it as the first one did. */
  lemma {:induction false} RedrawsSettle(m: ViewModel, n: nat)
    requires Overwrites(m)
    ensures Redraws(m, n + 1) == Redrawn(m)
    decreases n
  {
    if n > 0 {
      RedrawsSettle(m, n - 1);
      RedrawIdempotent(m);
    }
  }

  /** Within one dictionary pass the bar never moves backwards as more keys
      are tried; with an empty dictionary it stays at 0. */
  lemma DictProgressMonotone(m: ViewModel, c1: usize, c2: usize)
    requires DictionaryPhase(m.nestedPhase) && c1 <= c2
    ensures AtMost(ProgressBar(m.(dictKeysCurrent := c1)).value,
                   ProgressBar(m.(dictKeysCurrent := c2)).value)
    ensures m.dictKeysTotal == 0 ==>
      IsZero(ProgressBar(m.(dictKeysCurrent := c1)).value)
      && IsZero(ProgressBar(m.(dictKeysCurrent := c2)).value)
  {
  }

  /** In the nested dictionary phases the bar never moves backwards as the
      target key advances, as long as the sector fits its `uint8_t`. */
  lemma NestedProgressMonotone(m: ViewModel, k1: u16, k2: u16)
    requires NestedDictPhase(m.nestedPhase) && m.sectorsTotal > 0 && k1 <= k2
    requires k2 / (if m.prngType == PrngType.Weak then 2 else 16) < 0x100
    ensures AtMost(ProgressBar(m.(nestedTargetKey := k1)).value,
                   ProgressBar(m.(nestedTargetKey := k2)).value)
  {
    if m.prngType == PrngType.Weak {
      ClampMonotone(k1 / 2, k2 / 2, m.sectorsTotal);
    } else {
      ClampMonotone(k1 / 16, k2 / 16, m.sectorsTotal);
    }
  }

  /** During weak-PRNG nonce collection, the status line and the bar text
      name the same sector. */
  lemma CollectionStatusMatchesBar(m: ViewModel)
    requires m.nestedPhase == NestedPhase.CollectNtEnc && m.prngType == PrngType.Weak
    ensures StatusLine(m) == CollectingFrom(ProgressBar(m).text.shown)
  {
  }

  /** A freshly reset screen with the tag present: empty header, unlocking
      sector 0, the bar empty but labelled "1/0", no keys and no sectors. */
  lemma ResetScreen(m: ViewModel)
    requires m.cardDetected
    ensures Draw(Reset(m)).screen ==
      Attack("", Unlocking(0), Bar(Label(1, 0), Zero), Label(0, 0), Label(0, 0))
  {
  }
}
