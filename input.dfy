/** What the game reads from its terminal collaborator each frame. */
module Input {

  datatype Option<T> = None | Some(value: T)

  /** The keys the game distinguishes; every other key of the keyboard is OtherKey. */
  datatype Key = Space | P | Q | A | B | C | D | OtherKey
}
