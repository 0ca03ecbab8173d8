/** The text of the info label (update_info_label, src/main.cpp:43-55): a
    header naming the selected kernel type, then a bulleted list of that
    type's properties for the three types the combo box offers, and nothing
    more for any other text. */
module InfoLabel {

  /** The label's text before any kernel type is chosen. */
  const Placeholder := "Select a kernel type to see its properties."

  /** The entries of the kernel-type combo box. */
  const KernelTypes: seq<string> := ["lts", "zen", "specific version"]

  function Header(kernelType: string): string {
    "Selected Kernel Type: " + kernelType + "\nProperties:\n"
  }

  /** The properties listed for a kernel type, one per bullet line; none for
      a text that is not one of the combo box's entries. */
  function Properties(kernelType: string): (props: seq<string>)
    ensures props != [] <==> kernelType in KernelTypes
  {
    if kernelType == "lts" then
      ["Long-term support", "Stable and reliable", "Recommended for production systems"]
    else if kernelType == "zen" then
      ["Optimized for desktop usage", "Improved responsiveness", "May sacrifice some stability"]
    else if kernelType == "specific version" then
      ["Allows selection of a specific kernel version", "Useful for compatibility or testing"]
    else []
  }

  /** Each property as a line "- <property>\n", in order. */
  function Bullets(props: seq<string>): (text: string)
    ensures text == "" <==> props == []
  {
    if props == [] then "" else "- " + props[0] + "\n" + Bullets(props[1..])
  }

  /** Appending to a text leaves it unchanged exactly when nothing is appended. */
  lemma AppendNothing(a: string, b: string)
    ensures a + b == a <==> b == ""
  {
    if a + b == a {
      assert |b| == 0;
    }
  }

  /** The label text: always the header, then the type's properties, which
      are present exactly when the type is one of the combo box's entries. */
  function InfoText(kernelType: string): (info: string)
    ensures Header(kernelType) <= info
    ensures info == Header(kernelType) <==> kernelType !in KernelTypes
  {
    AppendNothing(Header(kernelType), Bullets(Properties(kernelType)));
    Header(kernelType) + Bullets(Properties(kernelType))
  }
}
