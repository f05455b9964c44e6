/** The nullable columns and arguments of the source (`created_at`, `next_charge_at`,
    `changed_at`, `execution_id`, a status string that may be `None`) become `Option`s. */
module Optional {
  datatype Option<+T> = None | Some(value: T)
}
