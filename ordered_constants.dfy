/** The action and extra key shared by the ordered-broadcast sender and its
    two receivers. The defining Kotlin object is not part of this model, so
    the strings below are stand-ins: only their being fixed and distinct
    matters to anything proved here. */
module OrderedConstants {
  const ACTION_ORDERED_MESSAGE := "com.balajiprabhu.broadcastreceiver.ORDERED_MESSAGE"
  const EXTRA_MESSAGE := "extra_ordered_message"
}
