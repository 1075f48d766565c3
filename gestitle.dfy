// The GES title source: a video source that keeps the properties of a text
// title (text, font, alignments, colours, position) and, once its
// elements exist, forwards every change to them.

module GesTitleSource {
  import opened Wrappers
  import opened CInts

  /** `GESTextHAlign`. */
  datatype HAlign = HLeft | HCenter | HRight | HPosition | HAbsolute

  /** `GESTextVAlign`. */
  datatype VAlign = VBaseline | VBottom | VTop | VPosition | VCenter | VAbsolute

  /** The `pattern` property of a `videotestsrc`: the solid colour or any other. */
  datatype Pattern = Solid | OtherPattern(id: int)

  const DefaultText: string := ""
  const DefaultFontDesc: string := "Serif 36"
  const DefaultHAlignment: HAlign := HCenter
  const DefaultVAlignment: VAlign := VBaseline
  /** `G_MAXUINT32`, the colour opaque white. */
  const OpaqueWhite: uint32 := 0xFFFF_FFFF

  /** The private fields the title source stores; `text` and `font_desc` are
      C strings, so each may be NULL (`None`). Positions are stored, never
      computed with. */
  datatype Props = Props(
    text: Option<string>,
    fontDesc: Option<string>,
    halign: HAlign,
    valign: VAlign,
    color: uint32,
    background: uint32,
    xpos: real,
    ypos: real)

  /** The properties of the `textoverlay` element the source writes. */
  datatype TextProps = TextProps(
    text: Option<string>,
    fontDesc: Option<string>,
    valignment: VAlign,
    halignment: HAlign,
    color: uint32,
    xpos: real,
    ypos: real)

  /** The properties of the `videotestsrc` background element the source writes. */
  datatype BgProps = BgProps(pattern: Pattern, foregroundColor: uint32)

  /** A title source: its stored properties and its two element references
      (`None` is a NULL reference). */
  datatype State = State(props: Props, textEl: Option<TextProps>, backgroundEl: Option<BgProps>)

  /** The state `ges_title_source_init` leaves. */
  function InitialState(): State
  {
    State(Props(Some(DefaultText), Some(DefaultFontDesc), DefaultHAlignment, DefaultVAlignment,
                OpaqueWhite, OpaqueWhite, 0.5, 0.5),
          None, None)
  }

  lemma InitialValues()
    ensures var st := InitialState();
      && st.props.text == Some("") && st.props.fontDesc == Some("Serif 36")
      && st.props.color == 0xFFFF_FFFF && st.props.background == 0xFFFF_FFFF
      && st.props.xpos == 0.5 && st.props.ypos == 0.5
      && st.props.halign == HCenter && st.props.valign == VBaseline
      && st.textEl.None? && st.backgroundEl.None?
  {
  }

  // ---------------------------------------------------------------------
  // Child property lookup

  /** The property name `_lookup_child` hands on to the parent class: the
      background colour is exposed under two aliases of the background
      element's `foreground-color`. */
  function LookupChild(name: string): string
  {
    if name == "background" then "foreground-color"
    else if name == "GstTextOverlay:background" then "foreground-color"
    else name
  }

  lemma LookupChildAliases(name: string)
    ensures LookupChild(name) == "foreground-color"
      <==> name in {"background", "GstTextOverlay:background", "foreground-color"}
    ensures name != "background" && name != "GstTextOverlay:background" ==> LookupChild(name) == name
  {
  }

  lemma LookupChildIdempotent(name: string)
    ensures LookupChild(LookupChild(name)) == LookupChild(name)
  {
  }

  // ---------------------------------------------------------------------
  // Setters

  /** The stored properties, by name. */
  datatype Field = TextField | FontDescField | VAlignField | HAlignField
                 | ColorField | BackgroundField | XPosField | YPosField

  /** A property value of any of the types the fields hold. */
  datatype Value = Str(s: Option<string>) | VA(v: VAlign) | HA(h: HAlign) | Colour(c: uint32) | Pos(x: real)

  function Get(p: Props, f: Field): Value
  {
    match f
    case TextField => Str(p.text)
    case FontDescField => Str(p.fontDesc)
    case VAlignField => VA(p.valign)
    case HAlignField => HA(p.halign)
    case ColorField => Colour(p.color)
    case BackgroundField => Colour(p.background)
    case XPosField => Pos(p.xpos)
    case YPosField => Pos(p.ypos)
  }

  /** The value a field of the text element holds, for the fields that
      element carries (all but the background colour). */
  function GetText(e: TextProps, f: Field): Value
    requires f != BackgroundField
  {
    match f
    case TextField => Str(e.text)
    case FontDescField => Str(e.fontDesc)
    case VAlignField => VA(e.valignment)
    case HAlignField => HA(e.halignment)
    case ColorField => Colour(e.color)
    case XPosField => Pos(e.xpos)
    case YPosField => Pos(e.ypos)
  }

  /** One call of a `ges_title_source_set_*` function. */
  datatype Setter =
    | SetText(text: Option<string>)
    | SetFontDesc(fontDesc: Option<string>)
    | SetVAlignment(valign: VAlign)
    | SetHAlignment(halign: HAlign)
    | SetTextColor(color: uint32)
    | SetBackgroundColor(background: uint32)
    | SetXPos(xpos: real)
    | SetYPos(ypos: real)

  function FieldOf(s: Setter): Field
  {
    match s
    case SetText(_) => TextField
    case SetFontDesc(_) => FontDescField
    case SetVAlignment(_) => VAlignField
    case SetHAlignment(_) => HAlignField
    case SetTextColor(_) => ColorField
    case SetBackgroundColor(_) => BackgroundField
    case SetXPos(_) => XPosField
    case SetYPos(_) => YPosField
  }

  function ValueOf(s: Setter): Value
  {
    match s
    case SetText(t) => Str(t)
    case SetFontDesc(f) => Str(f)
    case SetVAlignment(v) => VA(v)
    case SetHAlignment(h) => HA(h)
    case SetTextColor(c) => Colour(c)
    case SetBackgroundColor(c) => Colour(c)
    case SetXPos(x) => Pos(x)
    case SetYPos(y) => Pos(y)
  }

  function Store(p: Props, s: Setter): Props
  {
    match s
    case SetText(t) => p.(text := t)
    case SetFontDesc(f) => p.(fontDesc := f)
    case SetVAlignment(v) => p.(valign := v)
    case SetHAlignment(h) => p.(halign := h)
    case SetTextColor(c) => p.(color := c)
    case SetBackgroundColor(c) => p.(background := c)
    case SetXPos(x) => p.(xpos := x)
    case SetYPos(y) => p.(ypos := y)
  }

  /** What a setter writes into the text element. */
  function ForwardText(e: TextProps, s: Setter): TextProps
  {
    match s
    case SetText(t) => e.(text := t)
    case SetFontDesc(f) => e.(fontDesc := f)
    case SetVAlignment(v) => e.(valignment := v)
    case SetHAlignment(h) => e.(halignment := h)
    case SetTextColor(c) => e.(color := c)
    case SetBackgroundColor(_) => e
    case SetXPos(x) => e.(xpos := x)
    case SetYPos(y) => e.(ypos := y)
  }

  /** What a setter writes into the background element. */
  function ForwardBackground(b: BgProps, s: Setter): BgProps
  {
    match s
    case SetBackgroundColor(c) => b.(foregroundColor := c)
    case _ => b
  }

  /** A setter stores its value, then forwards it to its element when that
      element exists. */
  function SetStep(st: State, s: Setter): State
  {
    State(Store(st.props, s),
          if st.textEl.Some? then Some(ForwardText(st.textEl.value, s)) else None,
          if st.backgroundEl.Some? then Some(ForwardBackground(st.backgroundEl.value, s)) else None)
  }

  /** The setter stores its own value in its own field and leaves every other
      stored field as it was. */
  lemma SetChangesOnlyItsField(st: State, s: Setter, f: Field)
    ensures Get(SetStep(st, s).props, f) == if f == FieldOf(s) then ValueOf(s) else Get(st.props, f)
  {
  }

  /** A setter creates and drops no element; it writes its value into the text
      element exactly when it is not the background setter and that element
      exists, and into the background element exactly when it is the
      background setter and that element exists; nothing else changes in
      either element. */
  lemma SetForwardsToExistingElement(st: State, s: Setter, f: Field)
    requires f != BackgroundField
    ensures var st' := SetStep(st, s);
      && st'.textEl.Some? == st.textEl.Some?
      && st'.backgroundEl.Some? == st.backgroundEl.Some?
      && (st.textEl.Some? ==>
            GetText(st'.textEl.value, f) == if f == FieldOf(s) then ValueOf(s) else GetText(st.textEl.value, f))
      && (st.backgroundEl.Some? ==>
            st'.backgroundEl.value.pattern == st.backgroundEl.value.pattern
            && st'.backgroundEl.value.foregroundColor
               == if s.SetBackgroundColor? then s.background else st.backgroundEl.value.foregroundColor)
  {
  }

  /** Every element that exists shows the stored properties: the text element
      each of its fields (a NULL text or font is not forwarded, so it leaves
      the element's value alone), the background element the solid pattern in
      the background colour. */
  predicate Synced(st: State)
  {
    && (st.textEl.Some? ==>
          var e := st.textEl.value;
          && (st.props.text.Some? ==> e.text == st.props.text)
          && (st.props.fontDesc.Some? ==> e.fontDesc == st.props.fontDesc)
          && e.valignment == st.props.valign && e.halignment == st.props.halign
          && e.color == st.props.color && e.xpos == st.props.xpos && e.ypos == st.props.ypos)
    && (st.backgroundEl.Some? ==>
          st.backgroundEl.value == BgProps(Solid, st.props.background))
  }

  lemma SetKeepsSynced(st: State, s: Setter)
    requires Synced(st)
    ensures Synced(SetStep(st, s))
  {
  }

  /** `ges_title_source_create_source` given the fresh text and background
      elements `text` and `background`: the stored fields are copied into
      them and the source keeps both references. */
  function CreateStep(p: Props, text: TextProps, background: BgProps): State
  {
    var e := text.(text := if p.text.Some? then p.text else text.text,
                   fontDesc := if p.fontDesc.Some? then p.fontDesc else text.fontDesc,
                   valignment := p.valign, halignment := p.halign,
                   color := p.color, xpos := p.xpos, ypos := p.ypos);
    State(p, Some(e), Some(BgProps(Solid, p.background)))
  }

  lemma CreateSyncs(p: Props, text: TextProps, background: BgProps)
    ensures var st := CreateStep(p, text, background);
      && Synced(st) && st.props == p
      && st.textEl.Some? && st.backgroundEl.Some?
      && st.backgroundEl.value.pattern == Solid
      && (p.text.None? ==> st.textEl.value.text == text.text)
  {
  }

  /** After the elements exist, any run of setters keeps them showing the
      stored properties. */
  lemma {:induction false} CreateThenSetStaysSynced(p: Props, text: TextProps, background: BgProps, ss: seq<Setter>)
    ensures var st := SetAll(CreateStep(p, text, background), ss);
      Synced(st) && st.textEl.Some? && st.backgroundEl.Some?
  {
    if ss != [] {
      CreateThenSetStaysSynced(p, text, background, ss[..|ss| - 1]);
      SetKeepsSynced(SetAll(CreateStep(p, text, background), ss[..|ss| - 1]), ss[|ss| - 1]);
    }
  }

  /** A run of setters, in order. */
  function SetAll(st: State, ss: seq<Setter>): State
  {
    if ss == [] then st else SetStep(SetAll(st, ss[..|ss| - 1]), ss[|ss| - 1])
  }

  /** Before the elements exist, setters only store: no element appears. */
  lemma {:induction false} SetAllWithoutElements(st: State, ss: seq<Setter>)
    requires st.textEl.None? && st.backgroundEl.None?
    ensures SetAll(st, ss).textEl.None? && SetAll(st, ss).backgroundEl.None?
  {
    if ss != [] {
      SetAllWithoutElements(st, ss[..|ss| - 1]);
    }
  }

  /** `ges_title_source_dispose`: both element references are released and
      become NULL. */
  function DisposeStep(st: State): State
  {
    st.(textEl := None, backgroundEl := None)
  }

  lemma DisposeDropsElements(st: State)
    ensures var st' := DisposeStep(st);
      st'.textEl.None? && st'.backgroundEl.None? && st'.props == st.props && Synced(st')
  {
  }

  // ---------------------------------------------------------------------
  // The objects

  /** A `textoverlay` element, as far as the title source sets it. */
  class TextOverlay {
    var text: Option<string>
    var fontDesc: Option<string>
    var valignment: VAlign
    var halignment: HAlign
    var color: uint32
    var xpos: real
    var ypos: real

    function Props(): TextProps
      reads this
    {
      TextProps(text, fontDesc, valignment, halignment, color, xpos, ypos)
    }

    constructor (initial: TextProps)
      ensures Props() == initial
    {
      text, fontDesc := initial.text, initial.fontDesc;
      valignment, halignment := initial.valignment, initial.halignment;
      color, xpos, ypos := initial.color, initial.xpos, initial.ypos;
    }
  }

  /** A `videotestsrc` element, as far as the title source sets it. */
  class VideoTestSrc {
    var pattern: Pattern
    var foregroundColor: uint32

    function Props(): BgProps
      reads this
    {
      BgProps(pattern, foregroundColor)
    }

    constructor (initial: BgProps)
      ensures Props() == initial
    {
      pattern, foregroundColor := initial.pattern, initial.foregroundColor;
    }
  }

  /** `GESTitleSource` with its private fields. */
  class TitleSource {
    var text: Option<string>
    var fontDesc: Option<string>
    var halign: HAlign
    var valign: VAlign
    var color: uint32
    var background: uint32
    var xpos: real
    var ypos: real
    var textEl: TextOverlay?
    var backgroundEl: VideoTestSrc?

    function Stored(): Props
      reads this
    {
      Props(text, fontDesc, halign, valign, color, background, xpos, ypos)
    }

    function Snapshot(): State
      reads this, textEl, backgroundEl
    {
      State(Stored(),
            if textEl != null then Some(textEl.Props()) else None,
            if backgroundEl != null then Some(backgroundEl.Props()) else None)
    }

    /** `ges_title_source_init`. */
    constructor ()
      ensures Snapshot() == InitialState()
    {
      text, fontDesc := Some(DefaultText), Some(DefaultFontDesc);
      textEl := null;
      halign, valign := DefaultHAlignment, DefaultVAlignment;
      color, background := OpaqueWhite, OpaqueWhite;
      xpos, ypos := 0.5, 0.5;
      backgroundEl := null;
    }

    /** `ges_title_source_set_text`. */
    method SetText(t: Option<string>)
      modifies this, textEl
      ensures textEl == old(textEl) && backgroundEl == old(backgroundEl)
      ensures Snapshot() == SetStep(old(Snapshot()), Setter.SetText(t))
    {
      text := t;
      if textEl != null {
        textEl.text := t;
      }
    }

    /** `ges_title_source_set_font_desc`. */
    method SetFontDesc(f: Option<string>)
      modifies this, textEl
      ensures textEl == old(textEl) && backgroundEl == old(backgroundEl)
      ensures Snapshot() == SetStep(old(Snapshot()), Setter.SetFontDesc(f))
    {
      fontDesc := f;
      if textEl != null {
        textEl.fontDesc := f;
      }
    }

    /** `ges_title_source_set_valignment`. */
    method SetVAlignment(v: VAlign)
      modifies this, textEl
      ensures textEl == old(textEl) && backgroundEl == old(backgroundEl)
      ensures Snapshot() == SetStep(old(Snapshot()), Setter.SetVAlignment(v))
    {
      valign := v;
      if textEl != null {
        textEl.valignment := v;
      }
    }

    /** `ges_title_source_set_halignment`. */
    method SetHAlignment(h: HAlign)
      modifies this, textEl
      ensures textEl == old(textEl) && backgroundEl == old(backgroundEl)
      ensures Snapshot() == SetStep(old(Snapshot()), Setter.SetHAlignment(h))
    {
      halign := h;
      if textEl != null {
        textEl.halignment := h;
      }
    }

    /** `ges_title_source_set_text_color`. */
    method SetTextColor(c: uint32)
      modifies this, textEl
      ensures textEl == old(textEl) && backgroundEl == old(backgroundEl)
      ensures Snapshot() == SetStep(old(Snapshot()), Setter.SetTextColor(c))
    {
      color := c;
      if textEl != null {
        textEl.color := c;
      }
    }

    /** `ges_title_source_set_background_color`: forwarded to the background
        element's `foreground-color`. */
    method SetBackgroundColor(c: uint32)
      modifies this, backgroundEl
      ensures textEl == old(textEl) && backgroundEl == old(backgroundEl)
      ensures Snapshot() == SetStep(old(Snapshot()), Setter.SetBackgroundColor(c))
    {
      background := c;
      if backgroundEl != null {
        backgroundEl.foregroundColor := c;
      }
    }

    /** `ges_title_source_set_xpos`. */
    method SetXPos(x: real)
      modifies this, textEl
      ensures textEl == old(textEl) && backgroundEl == old(backgroundEl)
      ensures Snapshot() == SetStep(old(Snapshot()), Setter.SetXPos(x))
    {
      xpos := x;
      if textEl != null {
        textEl.xpos := x;
      }
    }

    /** `ges_title_source_set_ypos`. */
    method SetYPos(y: real)
      modifies this, textEl
      ensures textEl == old(textEl) && backgroundEl == old(backgroundEl)
      ensures Snapshot() == SetStep(old(Snapshot()), Setter.SetYPos(y))
    {
      ypos := y;
      if textEl != null {
        textEl.ypos := y;
      }
    }

    /** `ges_title_source_create_source`, given the two elements the factory
        made: the stored fields are written into them and the source keeps
        a reference to each. */
    method CreateSource(text': TextOverlay, background': VideoTestSrc)
      modifies this, text', background'
      ensures textEl == text' && backgroundEl == background'
      ensures Snapshot() == CreateStep(old(Stored()), old(text'.Props()), old(background'.Props()))
    {
      if text.Some? {
        text'.text := text;
      }
      if fontDesc.Some? {
        text'.fontDesc := fontDesc;
      }
      text'.valignment, text'.halignment := valign, halign;
      text'.color := color;
      text'.xpos := xpos;
      text'.ypos := ypos;
      background'.pattern := Solid;
      background'.foregroundColor := background;
      textEl, backgroundEl := text', background';
    }

    /** `ges_title_source_dispose`. */
    method Dispose()
      modifies this
      ensures Snapshot() == DisposeStep(old(Snapshot()))
    {
      textEl := null;
      backgroundEl := null;
    }
  }
}
