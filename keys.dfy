/** Keyboard translation for the framebuffer backend: Linux input keycodes
    become egui keys, modifier changes, or text, under the current caps-lock,
    num-lock and shift state. Keycodes the tables do not list give `None`
    (the tables have no catch-all arm). */
module Keys {
  import opened Bytes

  /** Lock states and every physical modifier key, left and right apart. */
  datatype SuperModifiers = SuperModifiers(
    caps_lock: bool, num_lock: bool,
    left_shift: bool, right_shift: bool,
    left_ctrl: bool, right_ctrl: bool,
    left_alt: bool, right_alt: bool)

  /** `SuperModifiers::default()`: nothing held, no lock on. */
  const NoModifiers: SuperModifiers := SuperModifiers(false, false, false, false, false, false, false, false)

  /** egui's modifier summary. */
  datatype Modifiers = Modifiers(alt: bool, ctrl: bool, shift: bool, mac_cmd: bool, command: bool)

  /** `Into<egui::Modifiers>`: left and right merged; `command` follows ctrl;
      locks are dropped. */
  function ToModifiers(m: SuperModifiers): (r: Modifiers)
    ensures r.alt <==> m.left_alt || m.right_alt
    ensures r.shift <==> m.left_shift || m.right_shift
    ensures (r.ctrl <==> m.left_ctrl || m.right_ctrl) && r.command == r.ctrl
    ensures !r.mac_cmd
  {
    Modifiers(m.left_alt || m.right_alt, m.left_ctrl || m.right_ctrl, m.left_shift || m.right_shift,
              false, m.left_ctrl || m.right_ctrl)
  }

  /** The lock keys do not reach egui. */
  lemma ToModifiersIgnoresLocks(m: SuperModifiers, caps: bool, num: bool)
    ensures ToModifiers(m.(caps_lock := caps, num_lock := num)) == ToModifiers(m)
  {
  }

  /** The egui keys the table produces. */
  datatype EguiKey =
    | Escape | F1 | F2 | F3 | F4 | F5 | F6 | F7 | F8 | F9 | F10 | F11 | F12
    | Num0 | Num1 | Num2 | Num3 | Num4 | Num5 | Num6 | Num7 | Num8 | Num9
    | Minus | PlusEquals | Backspace | Tab | Enter | Space
    | Insert | Delete | Home | End | PageUp | PageDown
    | ArrowUp | ArrowDown | ArrowLeft | ArrowRight
    | A | B | C | D | E | F | G | H | I | J | K | L | M
    | N | O | P | Q | R | S | T | U | V | W | X | Y | Z

  datatype KeyOrModifier = Key(key: EguiKey) | Mod(change: SuperModifiers)

  // ------------------------------------------------------------ selectors

  function IfNumlockOr<T>(mods: SuperModifiers, ifNumlock: T, orElse: T): T
  {
    if mods.num_lock then ifNumlock else orElse
  }

  function IfNumlock<T>(mods: SuperModifiers, ifNumlock: T): Option<T>
  {
    if mods.num_lock then Some(ifNumlock) else None
  }

  function IfNotNumlock<T>(mods: SuperModifiers, ifNotNumlock: T): Option<T>
  {
    if !mods.num_lock then Some(ifNotNumlock) else None
  }

  /** Either shift key is down. */
  predicate Shifted(mods: SuperModifiers)
  {
    mods.left_shift || mods.right_shift
  }

  /** Letters: the capital form iff caps lock XOR a shift key. */
  function Caps<T>(mods: SuperModifiers, ifBig: T, ifSmall: T): T
  {
    if mods.caps_lock != Shifted(mods) then ifBig else ifSmall
  }

  /** Symbols: the shifted form iff a shift key is down; caps lock is ignored. */
  function Shift<T>(mods: SuperModifiers, ifBig: T, ifSmall: T): T
  {
    if Shifted(mods) then ifBig else ifSmall
  }

  // ------------------------------------------------------------ the tables

  /** What an arm of `keycode_to_egui_key` computes, before the modifiers are
      consulted: a fixed key, a selector call, or a modifier change. */
  datatype KeyRule =
    | Plain(key: EguiKey)
    | NumlockOr(ifNumlock: EguiKey, orElse: EguiKey)   // `if_numlock_or`
    | OnlyNumlock(key: EguiKey)                        // `if_numlock(…)?`
    | OnlyNotNumlock(key: EguiKey)                     // `if_not_numlock(…)?`
    | Modifier(change: SuperModifiers)

  /** What an arm of `keycode_to_text` computes, before the modifiers are
      consulted. */
  datatype TextRule =
    | Fixed(text: string)
    | CapsOf(big: string, small: string)     // `caps`
    | ShiftOf(big: string, small: string)    // `shift`
    | NumlockText(text: string)              // `if_numlock(…)?`

  /** The match of `keycode_to_egui_key`: the rule of each keycode, `None`
      for the arms that return `None` and for unlisted keycodes. */
  function KeyRuleOf(keycode: nat): Option<KeyRule>
  {
    if keycode < 32 then KeyRuleOfBlock0(keycode)
    else if keycode < 64 then KeyRuleOfBlock1(keycode)
    else if keycode < 96 then KeyRuleOfBlock2(keycode)
    else KeyRuleOfBlock3(keycode)
  }

  /** The arms for keycodes 0 to 31, in the order written. */
  function KeyRuleOfBlock0(keycode: nat): Option<KeyRule>
  {
    match keycode
    case 1 => Some(Plain(Escape))
    case 2 => Some(Plain(Num1))
    case 3 => Some(Plain(Num2))
    case 4 => Some(Plain(Num3))
    case 5 => Some(Plain(Num4))
    case 6 => Some(Plain(Num5))
    case 7 => Some(Plain(Num6))
    case 8 => Some(Plain(Num7))
    case 9 => Some(Plain(Num8))
    case 10 => Some(Plain(Num9))
    case 11 => Some(Plain(Num0))
    case 12 => Some(Plain(Minus))
    case 13 => Some(Plain(PlusEquals))
    case 14 => Some(Plain(Backspace))
    case 15 => Some(Plain(Tab))
    case 16 => Some(Plain(Q))
    case 17 => Some(Plain(W))
    case 18 => Some(Plain(E))
    case 19 => Some(Plain(R))
    case 20 => Some(Plain(T))
    case 21 => Some(Plain(Y))
    case 22 => Some(Plain(U))
    case 23 => Some(Plain(I))
    case 24 => Some(Plain(O))
    case 25 => Some(Plain(P))
    case 26 => None    // KEY_LEFTBRACE
    case 27 => None    // KEY_RIGHTBRACE
    case 30 => Some(Plain(A))
    case 31 => Some(Plain(S))
    case 28 => Some(Plain(Enter))
    case 29 => Some(Modifier(NoModifiers.(left_ctrl := true)))      // KEY_LEFTCTRL
    case _ => None
  }

  /** The arms for keycodes 32 to 63, in the order written. */
  function KeyRuleOfBlock1(keycode: nat): Option<KeyRule>
  {
    match keycode
    case 59 => Some(Plain(F1))
    case 60 => Some(Plain(F2))
    case 61 => Some(Plain(F3))
    case 62 => Some(Plain(F4))
    case 63 => Some(Plain(F5))
    case 41 => None    // KEY_GRAVE
    case 55 => None    // KEY_KPASTERISK
    case 43 => None    // KEY_BACKSLASH
    case 58 => Some(Modifier(NoModifiers.(caps_lock := true)))    // KEY_CAPSLOCK
    case 32 => Some(Plain(D))
    case 33 => Some(Plain(F))
    case 34 => Some(Plain(G))
    case 35 => Some(Plain(H))
    case 36 => Some(Plain(J))
    case 37 => Some(Plain(K))
    case 38 => Some(Plain(L))
    case 39 => None    // KEY_SEMICOLON
    case 40 => None    // KEY_APOSTROPHE
    case 42 => Some(Modifier(NoModifiers.(left_shift := true)))     // KEY_LEFTSHIFT
    case 44 => Some(Plain(Z))
    case 45 => Some(Plain(X))
    case 46 => Some(Plain(C))
    case 47 => Some(Plain(V))
    case 48 => Some(Plain(B))
    case 49 => Some(Plain(N))
    case 50 => Some(Plain(M))
    case 51 => None    // KEY_COMMA
    case 52 => None    // KEY_DOT
    case 53 => None    // KEY_SLASH
    case 54 => Some(Modifier(NoModifiers.(right_shift := true)))    // KEY_RIGHTSHIFT
    case 56 => Some(Modifier(NoModifiers.(left_alt := true)))       // KEY_LEFTALT
    case 57 => Some(Plain(Space))
    case _ => None
  }

  /** The arms for keycodes 64 to 95, in the order written. */
  function KeyRuleOfBlock2(keycode: nat): Option<KeyRule>
  {
    match keycode
    case 64 => Some(Plain(F6))
    case 65 => Some(Plain(F7))
    case 66 => Some(Plain(F8))
    case 67 => Some(Plain(F9))
    case 68 => Some(Plain(F10))
    case 87 => Some(Plain(F11))
    case 88 => Some(Plain(F12))
    case 70 => None    // KEY_SCROLLLOCK
    case 69 => Some(Modifier(NoModifiers.(num_lock := true)))     // KEY_NUMLOCK
    case 74 => Some(Plain(Minus))   // KEY_KPMINUS
    case 71 => Some(NumlockOr(Num7, Home))      // KEY_KP7
    case 72 => Some(NumlockOr(Num8, ArrowUp))   // KEY_KP8
    case 73 => Some(NumlockOr(Num9, PageUp))    // KEY_KP9
    case 78 => Some(Plain(PlusEquals))                         // KEY_KPPLUS
    case 75 => Some(NumlockOr(Num4, ArrowLeft))   // KEY_KP4
    case 76 => Some(OnlyNumlock(Num5))                    // KEY_KP5
    case 77 => Some(NumlockOr(Num6, ArrowRight))  // KEY_KP6
    case 79 => Some(NumlockOr(Num1, End))         // KEY_KP1
    case 80 => Some(NumlockOr(Num2, ArrowDown))   // KEY_KP2
    case 81 => Some(NumlockOr(Num3, PageDown))    // KEY_KP3
    case 82 => Some(NumlockOr(Num0, Insert))      // KEY_KP0
    case 83 => Some(OnlyNotNumlock(Delete))               // KEY_KPDOT
    case _ => None
  }

  /** The arms for keycodes 96 and above, in the order written. */
  function KeyRuleOfBlock3(keycode: nat): Option<KeyRule>
  {
    match keycode
    case 99 => None    // KEY_SYSRQ
    case 119 => None   // KEY_PAUSE
    case 110 => Some(Plain(Insert))
    case 102 => Some(Plain(Home))
    case 104 => Some(Plain(PageUp))
    case 98 => None    // KEY_KPSLASH
    case 111 => Some(Plain(Delete))
    case 107 => Some(Plain(End))
    case 109 => Some(Plain(PageDown))
    case 103 => Some(Plain(ArrowUp))
    case 96 => Some(Plain(Enter))                                // KEY_KPENTER
    case 125 => None   // KEY_LEFTMETA
    case 100 => Some(Modifier(NoModifiers.(right_alt := true)))     // KEY_RIGHTALT
    case 127 => None   // KEY_COMPOSE
    case 97 => Some(Modifier(NoModifiers.(right_ctrl := true)))     // KEY_RIGHTCTRL
    case 105 => Some(Plain(ArrowLeft))
    case 108 => Some(Plain(ArrowDown))
    case 106 => Some(Plain(ArrowRight))
    case _ => None
  }


  /** An arm's value under the current modifiers; a `?` that fires is `None`. */
  function ApplyKeyRule(rule: KeyRule, mods: SuperModifiers): Option<KeyOrModifier>
  {
    match rule
    case Plain(k) => Some(Key(k))
    case NumlockOr(a, b) => Some(Key(IfNumlockOr(mods, a, b)))
    case OnlyNumlock(k) => if IfNumlock(mods, k).Some? then Some(Key(k)) else None
    case OnlyNotNumlock(k) => if IfNotNumlock(mods, k).Some? then Some(Key(k)) else None
    case Modifier(change) => Some(Mod(change))
  }

  /** `keycode_to_egui_key`. */
  function KeycodeToKey(keycode: nat, mods: SuperModifiers): Option<KeyOrModifier>
  {
    match KeyRuleOf(keycode)
    case None => None
    case Some(rule) => ApplyKeyRule(rule, mods)
  }

  /** The match of `keycode_to_text`: the rule of each keycode, `None` for
      unlisted keycodes. */
  function TextRuleOf(keycode: nat): Option<TextRule>
  {
    if keycode < 32 then TextRuleOfBlock0(keycode)
    else if keycode < 64 then TextRuleOfBlock1(keycode)
    else if keycode < 96 then TextRuleOfBlock2(keycode)
    else TextRuleOfBlock3(keycode)
  }

  /** The arms for keycodes 0 to 31, in the order written. */
  function TextRuleOfBlock0(keycode: nat): Option<TextRule>
  {
    match keycode
    case 1 => Some(Fixed(""))      // Escape
    case 2 => Some(ShiftOf("!", "1"))
    case 3 => Some(ShiftOf("@", "2"))
    case 4 => Some(ShiftOf("#", "3"))
    case 5 => Some(ShiftOf("$", "4"))
    case 6 => Some(ShiftOf("%", "5"))
    case 7 => Some(ShiftOf("^", "6"))
    case 8 => Some(ShiftOf("&", "7"))
    case 9 => Some(ShiftOf("*", "8"))
    case 10 => Some(ShiftOf("(", "9"))
    case 11 => Some(ShiftOf(")", "0"))
    case 12 => Some(ShiftOf("_", "-"))
    case 13 => Some(ShiftOf("-", "+"))
    case 14 => Some(Fixed(""))     // backspace
    case 15 => Some(Fixed("\t"))
    case 16 => Some(CapsOf("Q", "q"))
    case 17 => Some(CapsOf("W", "w"))
    case 18 => Some(CapsOf("E", "e"))
    case 19 => Some(CapsOf("R", "r"))
    case 20 => Some(CapsOf("T", "t"))
    case 21 => Some(CapsOf("Y", "y"))
    case 22 => Some(CapsOf("U", "u"))
    case 23 => Some(CapsOf("I", "i"))
    case 24 => Some(CapsOf("O", "o"))
    case 25 => Some(CapsOf("P", "p"))
    case 26 => Some(ShiftOf("{", "["))
    case 27 => Some(ShiftOf("}", "]"))
    case 30 => Some(CapsOf("A", "a"))
    case 31 => Some(CapsOf("S", "s"))
    case 28 => Some(Fixed(""))     // enter
    case 29 => Some(Fixed(""))     // KEY_LEFTCTRL
    case _ => None
  }

  /** The arms for keycodes 32 to 63, in the order written. */
  function TextRuleOfBlock1(keycode: nat): Option<TextRule>
  {
    match keycode
    case 59 => Some(Fixed(""))     // F1
    case 60 => Some(Fixed(""))     // F2
    case 61 => Some(Fixed(""))     // F3
    case 62 => Some(Fixed(""))     // F4
    case 63 => Some(Fixed(""))     // F5
    case 41 => Some(ShiftOf("~", "`"))
    case 55 => Some(Fixed("*"))    // KEY_KPASTERISK
    case 43 => Some(ShiftOf("|", "\\"))
    case 58 => Some(Fixed(""))     // KEY_CAPSLOCK
    case 32 => Some(CapsOf("D", "d"))
    case 33 => Some(CapsOf("F", "f"))
    case 34 => Some(CapsOf("G", "g"))
    case 35 => Some(CapsOf("H", "h"))
    case 36 => Some(CapsOf("J", "j"))
    case 37 => Some(CapsOf("K", "k"))
    case 38 => Some(CapsOf("L", "l"))
    case 39 => Some(ShiftOf(":", ";"))
    case 40 => Some(ShiftOf("\"", "'"))
    case 42 => Some(Fixed(""))     // KEY_LEFTSHIFT
    case 44 => Some(CapsOf("Z", "z"))
    case 45 => Some(CapsOf("X", "x"))
    case 46 => Some(CapsOf("C", "c"))
    case 47 => Some(CapsOf("V", "v"))
    case 48 => Some(CapsOf("B", "b"))
    case 49 => Some(CapsOf("N", "n"))
    case 50 => Some(CapsOf("M", "m"))
    case 51 => Some(ShiftOf("<", ","))
    case 52 => Some(ShiftOf(">", "."))
    case 53 => Some(ShiftOf("?", "/"))
    case 54 => Some(Fixed(""))     // KEY_RIGHTSHIFT
    case 56 => Some(Fixed(""))     // KEY_LEFTALT
    case 57 => Some(Fixed(" "))
    case _ => None
  }

  /** The arms for keycodes 64 to 95, in the order written. */
  function TextRuleOfBlock2(keycode: nat): Option<TextRule>
  {
    match keycode
    case 64 => Some(Fixed(""))     // F6
    case 65 => Some(Fixed(""))     // F7
    case 66 => Some(Fixed(""))     // F8
    case 67 => Some(Fixed(""))     // F9
    case 68 => Some(Fixed(""))     // F10
    case 87 => Some(Fixed(""))     // F11
    case 88 => Some(Fixed(""))     // F12
    case 70 => Some(Fixed(""))     // KEY_SCROLLLOCK
    case 69 => Some(Fixed(""))     // KEY_NUMLOCK
    case 74 => Some(Fixed("-"))    // KEY_KPMINUS
    case 71 => Some(NumlockText("7"))
    case 72 => Some(NumlockText("8"))
    case 73 => Some(NumlockText("9"))
    case 78 => Some(Fixed("+"))    // KEY_KPPLUS
    case 75 => Some(NumlockText("4"))
    case 76 => Some(NumlockText("5"))
    case 77 => Some(NumlockText("6"))
    case 79 => Some(NumlockText("1"))
    case 80 => Some(NumlockText("2"))
    case 81 => Some(NumlockText("3"))
    case 82 => Some(NumlockText("0"))
    case 83 => Some(NumlockText("."))
    case _ => None
  }

  /** The arms for keycodes 96 and above, in the order written. */
  function TextRuleOfBlock3(keycode: nat): Option<TextRule>
  {
    match keycode
    case 99 => Some(Fixed(""))     // KEY_SYSRQ
    case 119 => Some(Fixed(""))    // KEY_PAUSE
    case 110 => Some(Fixed(""))    // insert
    case 102 => Some(Fixed(""))    // home
    case 104 => Some(Fixed(""))    // page up
    case 98 => Some(Fixed("/"))    // KEY_KPSLASH
    case 111 => Some(Fixed(""))    // delete
    case 107 => Some(Fixed(""))    // end
    case 109 => Some(Fixed(""))    // page down
    case 103 => Some(Fixed(""))    // arrow up
    case 96 => Some(Fixed(""))     // KEY_KPENTER
    case 125 => Some(Fixed(""))    // KEY_LEFTMETA
    case 100 => Some(Fixed(""))    // KEY_RIGHTALT
    case 127 => Some(Fixed(""))    // KEY_COMPOSE
    case 97 => Some(Fixed(""))     // KEY_RIGHTCTRL
    case 105 => Some(Fixed(""))    // arrow left
    case 108 => Some(Fixed(""))    // arrow down
    case 106 => Some(Fixed(""))    // arrow right
    case _ => None
  }


  /** An arm's text under the current modifiers; a `?` that fires is `None`. */
  function RenderText(rule: TextRule, mods: SuperModifiers): Option<string>
  {
    match rule
    case Fixed(text) => Some(text)
    case CapsOf(big, small) => Some(Caps(mods, big, small))
    case ShiftOf(big, small) => Some(Shift(mods, big, small))
    case NumlockText(text) => IfNumlock(mods, text)
  }

  /** The text before the empty-string check. */
  function RawText(keycode: nat, mods: SuperModifiers): Option<string>
  {
    match TextRuleOf(keycode)
    case None => None
    case Some(rule) => RenderText(rule, mods)
  }

  /** `keycode_to_text`: an empty mapping becomes `None`, so the text is
      never empty. */
  function KeycodeToText(keycode: nat, mods: SuperModifiers): (r: Option<string>)
    ensures r.Some? ==> r.value != "" && RawText(keycode, mods) == r
    ensures r.None? ==> RawText(keycode, mods).None? || RawText(keycode, mods) == Some("")
  {
    match RawText(keycode, mods)
    case None => None
    case Some(text) => if |text| == 0 then None else Some(text)
  }
}
