/** The `HistoryItem` record the sidebar displays: one completed enhancement. */
module HistorySidebar {

  /** `timestamp` is the millisecond clock reading taken when the item was made. */
  datatype HistoryItem = HistoryItem(id: string, originalPrompt: string, enhancedPrompt: string, timestamp: int)

  /** Reads an item's `id`; the key the history list is filtered on. */
  function ItemId(item: HistoryItem): string {
    item.id
  }
}
