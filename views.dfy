/** What a guard or conditional component renders, abstracted from JSX. */
module Views {
  import opened Wrappers

  /** A rendered React node; its content is opaque and it is truthy. */
  datatype Node = Node(name: string)

  /** The spinner, a `<Navigate to=... replace />`, or a fragment holding
      a node (`None`: an empty fragment or `null`). */
  datatype View = Loading | Navigate(to: string) | Show(node: Option<Node>)
}
