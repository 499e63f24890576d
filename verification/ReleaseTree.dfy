/** The content of a directory: files by their path relative to it. */
module ReleaseTree {
  newtype byte = x: int | 0 <= x < 256

  type Content = seq<byte>

  type Tree = map<string, Content>
}
