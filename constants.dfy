/** The annotation tools, the colour palette and the fixed drawing settings of the editor. */
module Constants {

  /** The five tool selections; exactly one is active at a time. */
  datatype Tool = Arrow | Box | Highlight | Text | NoTool

  const Red: string := "#ef4444"
  const Blue: string := "#3b82f6"
  const Green: string := "#10b981"
  const Yellow: string := "#fbbf24"
  const Orange: string := "#f97316"
  const Purple: string := "#a855f7"
  const Black: string := "#000000"
  const White: string := "#ffffff"

  /** The colour buttons of the toolbar, in toolbar order. */
  const Palette: seq<string> := [Red, Blue, Green, Yellow, Orange, Purple, Black, White]

  const StrokeWidth: nat := 3
  const FontSize: nat := 24
  const DefaultColor: string := Red
  const HighlightOpacity: real := 0.3
}
