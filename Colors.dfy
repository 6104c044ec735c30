/** Colours as the theme code sees them: `float` components held as their
    IEEE-754 single-precision bit patterns, `Vector4` as four of them, and
    `ThemePalette` as its seventeen named colours. No arithmetic is done on
    the components; only their classification and `Equals` are modelled. */
module Colors {
  /** A `float`, by its 32 bits. */
  datatype Single = Single(bits: bv32)

  /** The exponent field is all ones: an infinity or a NaN. */
  predicate IsSpecial(s: Single)
  {
    s.bits & 0x7F80_0000 == 0x7F80_0000
  }

  predicate IsNaN(s: Single)
  {
    IsSpecial(s) && s.bits & 0x007F_FFFF != 0
  }

  predicate IsFinite(s: Single)
  {
    !IsSpecial(s)
  }

  /** `+0` or `-0`. */
  predicate IsZero(s: Single)
  {
    s.bits & 0x7FFF_FFFF == 0
  }

  /** `s > 0`: the sign bit is clear, and the value is neither zero nor a NaN
      (positive infinity is greater than zero). */
  predicate IsPositive(s: Single)
  {
    s.bits & 0x8000_0000 == 0 && !IsZero(s) && !IsNaN(s)
  }

  /** `float.Equals`: numeric equality (so `+0` equals `-0`), except that a NaN
      equals every NaN. */
  predicate SingleEquals(a: Single, b: Single)
  {
    (IsNaN(a) && IsNaN(b)) || (!IsNaN(a) && !IsNaN(b) && (a == b || (IsZero(a) && IsZero(b))))
  }

  /** `float.Equals` is an equivalence relation, and equal bit patterns are
      always equal. */
  lemma {:induction false} SingleEqualsEquivalence(a: Single, b: Single, c: Single)
    ensures SingleEquals(a, a)
    ensures SingleEquals(a, b) ==> SingleEquals(b, a)
    ensures SingleEquals(a, b) && SingleEquals(b, c) ==> SingleEquals(a, c)
  {
  }

  /** Exactly two bit patterns are zero: `+0` and `-0`. */
  lemma {:induction false} ZeroPatterns(s: Single)
    ensures IsZero(s) <==> s.bits == 0 || s.bits == 0x8000_0000
  {
  }

  /** `Equals` is coarser than identity exactly on the zeros and the NaNs: two
      different bit patterns are `Equals` just when they are `+0` and `-0`, or
      both NaNs. */
  lemma {:induction false} EqualsBeyondIdentity(a: Single, b: Single)
    requires a != b
    ensures SingleEquals(a, b) <==>
      (IsNaN(a) && IsNaN(b)) || (a.bits == 0 && b.bits == 0x8000_0000) || (a.bits == 0x8000_0000 && b.bits == 0)
  {
    ZeroPatterns(a);
    ZeroPatterns(b);
  }

  /** `System.Numerics.Vector4`. */
  datatype Vector4 = Vector4(x: Single, y: Single, z: Single, w: Single)

  /** `Vector4.Equals`: component-wise `float.Equals`. */
  predicate VectorEquals(a: Vector4, b: Vector4)
  {
    SingleEquals(a.x, b.x) && SingleEquals(a.y, b.y) && SingleEquals(a.z, b.z) && SingleEquals(a.w, b.w)
  }

  /** `ThemePalette`: the seventeen colours of a legacy theme. */
  datatype ThemePalette = ThemePalette(
    panelBg: Vector4, panelBorder: Vector4, headerBg: Vector4, accent: Vector4,
    textPrimary: Vector4, textSecondary: Vector4, textDisabled: Vector4, link: Vector4, linkHover: Vector4,
    btn: Vector4, btnHovered: Vector4, btnActive: Vector4,
    btnText: Vector4, btnTextHovered: Vector4, btnTextActive: Vector4,
    tooltipBg: Vector4, tooltipText: Vector4)

  /** The names of the seventeen colours, one per row of the theme editor. */
  datatype PaletteField =
    | PanelBg | PanelBorder | HeaderBg | Accent
    | TextPrimary | TextSecondary | TextDisabled | Link | LinkHover
    | Btn | BtnHovered | BtnActive | BtnText | BtnTextHovered | BtnTextActive
    | TooltipBg | TooltipText

  /** The colour the editor row `f` reads. */
  function Get(p: ThemePalette, f: PaletteField): Vector4
  {
    match f
    case PanelBg => p.panelBg
    case PanelBorder => p.panelBorder
    case HeaderBg => p.headerBg
    case Accent => p.accent
    case TextPrimary => p.textPrimary
    case TextSecondary => p.textSecondary
    case TextDisabled => p.textDisabled
    case Link => p.link
    case LinkHover => p.linkHover
    case Btn => p.btn
    case BtnHovered => p.btnHovered
    case BtnActive => p.btnActive
    case BtnText => p.btnText
    case BtnTextHovered => p.btnTextHovered
    case BtnTextActive => p.btnTextActive
    case TooltipBg => p.tooltipBg
    case TooltipText => p.tooltipText
  }

  /** The palette after the editor row `f` stored `c`: that colour is `c`,
      every other colour is unchanged. */
  function With(p: ThemePalette, f: PaletteField, c: Vector4): (r: ThemePalette)
    ensures Get(r, f) == c
    ensures forall g :: g != f ==> Get(r, g) == Get(p, g)
  {
    match f
    case PanelBg => p.(panelBg := c)
    case PanelBorder => p.(panelBorder := c)
    case HeaderBg => p.(headerBg := c)
    case Accent => p.(accent := c)
    case TextPrimary => p.(textPrimary := c)
    case TextSecondary => p.(textSecondary := c)
    case TextDisabled => p.(textDisabled := c)
    case Link => p.(link := c)
    case LinkHover => p.(linkHover := c)
    case Btn => p.(btn := c)
    case BtnHovered => p.(btnHovered := c)
    case BtnActive => p.(btnActive := c)
    case BtnText => p.(btnText := c)
    case BtnTextHovered => p.(btnTextHovered := c)
    case BtnTextActive => p.(btnTextActive := c)
    case TooltipBg => p.(tooltipBg := c)
    case TooltipText => p.(tooltipText := c)
  }
}
