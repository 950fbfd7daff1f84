/**
 * The toast notifications the pages raise through `toast({ title,
 * description, variant })`.
 */
module Toasts {

  /** A toast; `destructive` stands for `variant: "destructive"`. */
  datatype Toast = Toast(title: string, description: string, destructive: bool)
}
