/** Item stacks, kept abstract: only "empty or not" matters to the container. */
module Items {

  type Count = n: nat | n > 0 witness 1

  /** `Empty` is `ItemStack.EMPTY`, the only stack that holds no items. */
  datatype ItemStack = Empty | Stack(item: string, count: Count)
}
