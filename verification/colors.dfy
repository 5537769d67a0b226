/** Colours as the pipeline stores them: three 8-bit channels. */
module Colors {

  /** One channel of a `uint8` RGB image. */
  type Channel = x: int | 0 <= x < 256

  datatype Rgb = Rgb(r: Channel, g: Channel, b: Channel)

  const Black: Rgb := Rgb(0, 0, 0)
  const White: Rgb := Rgb(255, 255, 255)
}
