/** What the program's two nginx configurations are written with. */
module ConfigLines {
  function Join(lines: seq<string>): string {
    if lines == [] then "" else if |lines| == 1 then lines[0] else lines[0] + "\n" + Join(lines[1..])
  }

  /** One header that is passed on. */
  function HeaderLine(name: string, value: string): string {
    "        proxy_set_header " + name + " " + value + ";"
  }
}
