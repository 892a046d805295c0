/** The dictionary-attack screen's view model and the operations the attack
    orchestrator calls on it: the reset and the one-field setters. */
module DictAttackModel {
  import opened Ints
  import opened MfClassicPoller

  /** Number of keys (A and B) per Mifare Classic sector. */
  const KeysPerSector: nat := 2

  datatype ViewModel = ViewModel(
    header: string,
    cardDetected: bool,
    sectorsTotal: u8,
    sectorsRead: u8,
    currentSector: u8,
    keysFound: u8,
    dictKeysTotal: usize,
    dictKeysCurrent: usize,
    isKeyAttack: bool,
    keyAttackCurrentSector: u8,
    nestedPhase: NestedPhase,
    prngType: PrngType,
    backdoor: Backdoor,
    nestedTargetKey: u16,
    msbCount: u16)

  /** The fields of the view model, named so that frame conditions can
      quantify over them. */
  datatype Field =
    | Header | CardDetected | SectorsTotal | SectorsRead | CurrentSector
    | KeysFound | DictKeysTotal | DictKeysCurrent | IsKeyAttack
    | KeyAttackCurrentSector | Phase | Prng | Door | NestedTargetKey | MsbCount

  const AllFields: set<Field> :=
    {Header, CardDetected, SectorsTotal, SectorsRead, CurrentSector,
     KeysFound, DictKeysTotal, DictKeysCurrent, IsKeyAttack,
     KeyAttackCurrentSector, Phase, Prng, Door, NestedTargetKey, MsbCount}

  /** `a` and `b` hold the same content in every field of `fs`. */
  predicate AgreeOn(a: ViewModel, b: ViewModel, fs: set<Field>)
  {
    && (Header in fs ==> a.header == b.header)
    && (CardDetected in fs ==> a.cardDetected == b.cardDetected)
    && (SectorsTotal in fs ==> a.sectorsTotal == b.sectorsTotal)
    && (SectorsRead in fs ==> a.sectorsRead == b.sectorsRead)
    && (CurrentSector in fs ==> a.currentSector == b.currentSector)
    && (KeysFound in fs ==> a.keysFound == b.keysFound)
    && (DictKeysTotal in fs ==> a.dictKeysTotal == b.dictKeysTotal)
    && (DictKeysCurrent in fs ==> a.dictKeysCurrent == b.dictKeysCurrent)
    && (IsKeyAttack in fs ==> a.isKeyAttack == b.isKeyAttack)
    && (KeyAttackCurrentSector in fs ==> a.keyAttackCurrentSector == b.keyAttackCurrentSector)
    && (Phase in fs ==> a.nestedPhase == b.nestedPhase)
    && (Prng in fs ==> a.prngType == b.prngType)
    && (Door in fs ==> a.backdoor == b.backdoor)
    && (NestedTargetKey in fs ==> a.nestedTargetKey == b.nestedTargetKey)
    && (MsbCount in fs ==> a.msbCount == b.msbCount)
  }

  /** Every field outside `fs` holds the same content in `m` and `r`. */
  predicate OnlyChanged(m: ViewModel, r: ViewModel, fs: set<Field>)
  {
    AgreeOn(m, r, AllFields - fs)
  }

  /** The fields cover the record: two models that agree on every field
      are the same model. */
  lemma FieldsDetermineModel(m: ViewModel, r: ViewModel)
    requires AgreeOn(m, r, AllFields)
    ensures m == r
  {
  }

  /** One call of the screen's progress interface: the reset or a
      setter. */
  datatype Command =
    | DoReset
    | DoSetHeader(text: string)
    | DoSetCardState(detected: bool)
    | DoSetSectorsTotal(n8: u8)
    | DoSetSectorsRead(n8: u8)
    | DoSetKeysFound(n8: u8)
    | DoSetCurrentSector(n8: u8)
    | DoSetTotalDictKeys(n: usize)
    | DoSetCurrentDictKey(n: usize)
    | DoSetKeyAttack(n8: u8)
    | DoResetKeyAttack
    | DoSetNestedPhase(phase: NestedPhase)
    | DoSetPrngType(prng: PrngType)
    | DoSetBackdoor(door: Backdoor)
    | DoSetNestedTargetKey(n16: u16)
    | DoSetMsbCount(n16: u16)

  /** The effect of one call on the model. */
  function Apply(m: ViewModel, c: Command): ViewModel
  {
    match c
    case DoReset =>
      m.(sectorsTotal := 0, sectorsRead := 0, currentSector := 0, keysFound := 0,
         dictKeysTotal := 0, dictKeysCurrent := 0, isKeyAttack := false,
         nestedPhase := NestedPhase.None, prngType := PrngType.Unknown,
         backdoor := Backdoor.Unknown, nestedTargetKey := 0, msbCount := 0,
         header := "")
    case DoSetHeader(h) => m.(header := h)
    case DoSetCardState(d) => m.(cardDetected := d)
    case DoSetSectorsTotal(n) => m.(sectorsTotal := n)
    case DoSetSectorsRead(n) => m.(sectorsRead := n)
    case DoSetKeysFound(n) => m.(keysFound := n)
    case DoSetCurrentSector(n) => m.(currentSector := n)
    case DoSetTotalDictKeys(n) => m.(dictKeysTotal := n)
    case DoSetCurrentDictKey(n) => m.(dictKeysCurrent := n)
    case DoSetKeyAttack(s) => m.(isKeyAttack := true, keyAttackCurrentSector := s)
    case DoResetKeyAttack => m.(isKeyAttack := false)
    case DoSetNestedPhase(p) => m.(nestedPhase := p)
    case DoSetPrngType(t) => m.(prngType := t)
    case DoSetBackdoor(b) => m.(backdoor := b)
    case DoSetNestedTargetKey(k) => m.(nestedTargetKey := k)
    case DoSetMsbCount(n) => m.(msbCount := n)
  }

  /** The fields a reset leaves alone. */
  const ResetKeeps: set<Field> := {CardDetected, KeyAttackCurrentSector}

  /** The fields a call writes. */
  function Writes(c: Command): set<Field>
  {
    match c
    case DoReset => AllFields - ResetKeeps
    case DoSetHeader(_) => {Header}
    case DoSetCardState(_) => {CardDetected}
    case DoSetSectorsTotal(_) => {SectorsTotal}
    case DoSetSectorsRead(_) => {SectorsRead}
    case DoSetKeysFound(_) => {KeysFound}
    case DoSetCurrentSector(_) => {CurrentSector}
    case DoSetTotalDictKeys(_) => {DictKeysTotal}
    case DoSetCurrentDictKey(_) => {DictKeysCurrent}
    case DoSetKeyAttack(_) => {IsKeyAttack, KeyAttackCurrentSector}
    case DoResetKeyAttack => {IsKeyAttack}
    case DoSetNestedPhase(_) => {Phase}
    case DoSetPrngType(_) => {Prng}
    case DoSetBackdoor(_) => {Door}
    case DoSetNestedTargetKey(_) => {NestedTargetKey}
    case DoSetMsbCount(_) => {MsbCount}
  }

  /** `dict_attack_reset`: counters to zero, flags and enums to their
      initial values, the header emptied; the card-detected flag and the
      last key-reuse sector are kept. */
  function Reset(m: ViewModel): (r: ViewModel)
    ensures r.sectorsTotal == 0 && r.sectorsRead == 0 && r.currentSector == 0
    ensures r.keysFound == 0 && r.dictKeysTotal == 0 && r.dictKeysCurrent == 0
    ensures r.nestedTargetKey == 0 && r.msbCount == 0
    ensures !r.isKeyAttack
    ensures r.nestedPhase == NestedPhase.None
    ensures r.prngType == PrngType.Unknown
    ensures r.backdoor == Backdoor.Unknown
    ensures r.header == ""
    ensures OnlyChanged(m, r, AllFields - ResetKeeps)
  {
    Apply(m, DoReset)
  }

  /** `dict_attack_set_header` */
  function SetHeader(m: ViewModel, header: string): (r: ViewModel)
    ensures r.header == header
    ensures OnlyChanged(m, r, {Header})
  {
    Apply(m, DoSetHeader(header))
  }

  /** `dict_attack_set_card_state` */
  function SetCardState(m: ViewModel, detected: bool): (r: ViewModel)
    ensures r.cardDetected == detected
    ensures OnlyChanged(m, r, {CardDetected})
  {
    Apply(m, DoSetCardState(detected))
  }

  /** `dict_attack_set_sectors_total` */
  function SetSectorsTotal(m: ViewModel, n: u8): (r: ViewModel)
    ensures r.sectorsTotal == n
    ensures OnlyChanged(m, r, {SectorsTotal})
  {
    Apply(m, DoSetSectorsTotal(n))
  }

  /** `dict_attack_set_sectors_read` */
  function SetSectorsRead(m: ViewModel, n: u8): (r: ViewModel)
    ensures r.sectorsRead == n
    ensures OnlyChanged(m, r, {SectorsRead})
  {
    Apply(m, DoSetSectorsRead(n))
  }

  /** `dict_attack_set_keys_found` */
  function SetKeysFound(m: ViewModel, n: u8): (r: ViewModel)
    ensures r.keysFound == n
    ensures OnlyChanged(m, r, {KeysFound})
  {
    Apply(m, DoSetKeysFound(n))
  }

  /** `dict_attack_set_current_sector` */
  function SetCurrentSector(m: ViewModel, n: u8): (r: ViewModel)
    ensures r.currentSector == n
    ensures OnlyChanged(m, r, {CurrentSector})
  {
    Apply(m, DoSetCurrentSector(n))
  }

  /** `dict_attack_set_total_dict_keys` */
  function SetTotalDictKeys(m: ViewModel, n: usize): (r: ViewModel)
    ensures r.dictKeysTotal == n
    ensures OnlyChanged(m, r, {DictKeysTotal})
  {
    Apply(m, DoSetTotalDictKeys(n))
  }

  /** `dict_attack_set_current_dict_key` */
  function SetCurrentDictKey(m: ViewModel, n: usize): (r: ViewModel)
    ensures r.dictKeysCurrent == n
    ensures OnlyChanged(m, r, {DictKeysCurrent})
  {
    Apply(m, DoSetCurrentDictKey(n))
  }

  /** `dict_attack_set_key_attack`: a key-reuse check starts on `sector` */
  function SetKeyAttack(m: ViewModel, sector: u8): (r: ViewModel)
    ensures r.isKeyAttack && r.keyAttackCurrentSector == sector
    ensures OnlyChanged(m, r, {IsKeyAttack, KeyAttackCurrentSector})
  {
    Apply(m, DoSetKeyAttack(sector))
  }

  /** `dict_attack_reset_key_attack`: the key-reuse check ends; the sector
      it last checked stays recorded. */
  function ResetKeyAttack(m: ViewModel): (r: ViewModel)
    ensures !r.isKeyAttack
    ensures OnlyChanged(m, r, {IsKeyAttack})
  {
    Apply(m, DoResetKeyAttack)
  }

  /** `dict_attack_set_nested_phase` */
  function SetNestedPhase(m: ViewModel, p: NestedPhase): (r: ViewModel)
    ensures r.nestedPhase == p
    ensures OnlyChanged(m, r, {Phase})
  {
    Apply(m, DoSetNestedPhase(p))
  }

  /** `dict_attack_set_prng_type` */
  function SetPrngType(m: ViewModel, t: PrngType): (r: ViewModel)
    ensures r.prngType == t
    ensures OnlyChanged(m, r, {Prng})
  {
    Apply(m, DoSetPrngType(t))
  }

  /** `dict_attack_set_backdoor` */
  function SetBackdoor(m: ViewModel, b: Backdoor): (r: ViewModel)
    ensures r.backdoor == b
    ensures OnlyChanged(m, r, {Door})
  {
    Apply(m, DoSetBackdoor(b))
  }

  /** `dict_attack_set_nested_target_key` */
  function SetNestedTargetKey(m: ViewModel, k: u16): (r: ViewModel)
    ensures r.nestedTargetKey == k
    ensures OnlyChanged(m, r, {NestedTargetKey})
  {
    Apply(m, DoSetNestedTargetKey(k))
  }

  /** `dict_attack_set_msb_count` */
  function SetMsbCount(m: ViewModel, n: u16): (r: ViewModel)
    ensures r.msbCount == n
    ensures OnlyChanged(m, r, {MsbCount})
  {
    Apply(m, DoSetMsbCount(n))
  }

  /** Every command leaves the fields it does not write as they were. */
  lemma {:induction false} ApplyKeeps(m: ViewModel, c: Command)
    ensures OnlyChanged(m, Apply(m, c), Writes(c))
  {
  }

  /** What a command writes does not depend on the model it is applied
      to: every written field receives a fixed value. */
  lemma {:induction false} ApplyOverwrites(m1: ViewModel, m2: ViewModel, c: Command)
    ensures AgreeOn(Apply(m1, c), Apply(m2, c), Writes(c))
  {
  }

  /** Repeating a call changes nothing more. */
  lemma {:induction false} ApplyIdempotent(m: ViewModel, c: Command)
    ensures Apply(Apply(m, c), c) == Apply(m, c)
  {
  }

  /** A reset erases every earlier call that writes only fields the reset
      writes too: all of them except the card state and the key-reuse
      check's start. */
  lemma {:induction false} ResetErases(m: ViewModel, c: Command)
    requires ResetKeeps !! Writes(c)
    ensures Reset(Apply(m, c)) == Reset(m)
  {
  }

  /** After a reset, the model depends only on the card-detected flag and
      the last key-reuse sector: two models reset to the same model exactly
      when they agree on those two fields. */
  lemma {:induction false} ResetForgets(m1: ViewModel, m2: ViewModel)
    ensures Reset(m1) == Reset(m2) <==>
      (m1.cardDetected == m2.cardDetected
       && m1.keyAttackCurrentSector == m2.keyAttackCurrentSector)
  {
  }
}
