/** The string-building parts of the console logger: the message `log`
    prints and the boxed application title. Printing itself is not
    modelled. */
module Logger {
  import opened Outcomes

  /** `Colors.RESET`. */
  const Reset: string := "\U{1B}[0m"

  const TopLeft: char := '\U{2554}'      // box drawing, double down and right
  const TopRight: char := '\U{2557}'     // double down and left
  const BottomLeft: char := '\U{255A}'   // double up and right
  const BottomRight: char := '\U{255D}'  // double up and left
  const Horizontal: char := '\U{2550}'   // double horizontal
  const Vertical: char := '\U{2551}'     // double vertical

  function Max(a: int, b: int): int
  {
    if a >= b then a else b
  }

  /** Python `c * n` for one character `c`: empty when `n <= 0`. */
  function Repeat(c: char, n: int): (s: string)
    ensures |s| == Max(n, 0)
    ensures forall i :: 0 <= i < |s| ==> s[i] == c
    decreases n
  {
    if n <= 0 then [] else [c] + Repeat(c, n - 1)
  }

  /** `if color:`: both `None` and the empty string are falsy. */
  predicate Truthy(color: Option<string>)
  {
    color.Some? && |color.value| > 0
  }

  /** The message `log` prints: the indentation tabs, then the content,
      wrapped in the color code and `RESET` when a color is given. */
  function Message(indentationTabs: int, color: Option<string>, content: string): (m: string)
    ensures var t := Max(indentationTabs, 0);
            var code := if Truthy(color) then color.value else "";
            var reset := if Truthy(color) then Reset else "";
            && |m| == t + |code| + |content| + |reset|
            && (forall i :: 0 <= i < t ==> m[i] == '\t')
            && m[t..t + |code|] == code
            && m[t + |code|..t + |code| + |content|] == content
            && m[t + |code| + |content|..] == reset
  {
    var indentation := Repeat('\t', indentationTabs);
    if Truthy(color) then indentation + color.value + content + Reset
    else indentation + content
  }

  /** The three lines of `log_application_title` and the numbers behind
      them. */
  datatype TitleBox = TitleBox(
    width: int,
    padding: int,
    paddedTitle: string,
    top: string,
    middle: string,
    bottom: string)

  /** `log_application_title`: widen the box to `len(title) + 4` when the
      title would not fit with a space on each side, then center the title
      with the odd space on the right. */
  function ApplicationTitle(title: string, width: int): (b: TitleBox)
    ensures b.width == Max(width, |title| + 4)
    ensures |b.paddedTitle| == b.width - 2
    ensures 1 <= b.padding && b.padding + |title| <= |b.paddedTitle|
    ensures b.paddedTitle[b.padding..b.padding + |title|] == title
    ensures forall i :: 0 <= i < |b.paddedTitle| && !(b.padding <= i < b.padding + |title|)
                        ==> b.paddedTitle[i] == ' '
    ensures var right := |b.paddedTitle| - b.padding - |title|;
            b.padding <= right <= b.padding + 1
    ensures |b.top| == b.width && |b.middle| == b.width && |b.bottom| == b.width
    ensures b.top[0] == TopLeft && b.top[b.width - 1] == TopRight
    ensures b.bottom[0] == BottomLeft && b.bottom[b.width - 1] == BottomRight
    ensures forall i :: 0 < i < b.width - 1 ==> b.top[i] == Horizontal && b.bottom[i] == Horizontal
    ensures b.middle == [Vertical] + b.paddedTitle + [Vertical]
  {
    var w := if |title| + 2 > width - 2 then |title| + 4 else width;
    var padding := (w - 2 - |title|) / 2;
    var paddedTitle := Repeat(' ', padding) + title + Repeat(' ', w - 2 - |title| - padding);
    assert paddedTitle[padding..padding + |title|] == title;
    TitleBox(
      w,
      padding,
      paddedTitle,
      [TopLeft] + Repeat(Horizontal, w - 2) + [TopRight],
      [Vertical] + paddedTitle + [Vertical],
      [BottomLeft] + Repeat(Horizontal, w - 2) + [BottomRight])
  }

  /** Laying the title out again at the width it got changes nothing. */
  lemma ApplicationTitleStable(title: string, width: int)
    ensures ApplicationTitle(title, ApplicationTitle(title, width).width) == ApplicationTitle(title, width)
  {
  }
}
