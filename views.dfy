/**
 * What a guarded layout renders: the loading spinner, its children alone,
 * its children under the area's header, or nothing (`null`).
 */
module Views {
  datatype View = Loader | ChildrenOnly | HeaderAndChildren | Nothing

  /** The layout's children (the page content) appear in the view. */
  predicate ShowsChildren(v: View)
  {
    v == ChildrenOnly || v == HeaderAndChildren
  }
}
