# OrionEngine Vulkan backend: selection rules, as a Dafny model

OrionEngine's Vulkan backend decides what to create from what the driver
reports. This project models those decisions as pure Dafny functions over
capability records and proves what they guarantee. GPU, window and C
library handles are opaque values or inputs. The project has five modules:

- `Common`: `Option`, `Result`, 32-bit unsigned integers and the
  `static_cast<uint32_t>` wrap, bytes, and the sharing mode.
- `Device`: the queue-family query and scan, accepting a physical device,
  the "first acceptable device wins" loop, and planning the logical
  device's queues.
- `Swapchain`: surface-format and present-mode preference, extent choice
  and clamping, image-count clamping, sharing-mode choice, and the
  create-info and swapchain record that result.
- `MemoryBuffer`: the memory-type search, buffer creation, and the host
  upload and device copy over abstract byte sequences.
- `Filesystem`: READ/WRITE flags to an `fopen` mode, the open/closed
  handle state, and the result rules of reads and writes.

Exceptions (`std::runtime_error`) become `Failure` results. A `bool`
return paired with out-parameters becomes a record.

In these places the code behaves in ways a reader may not expect; the
model follows the code:
- The queue-family query at `vulkan_device.cpp:69-71` is issued with a
  count of 0 (see "Findings"). The device evaluation, selection and
  creation therefore take a `FamilyQuery` parameter: `CountAsWritten`
  gives the code's outcome, `CountIsCapacity` the evidently intended one.
  As written, no family is scanned, the first enumerated device is
  selected with every role at 0xFFFFFFFF, and the logical device asks for
  one entry, two queues of family 0xFFFFFFFF
  (`AsWrittenSelectsFirstDeviceWithoutFamilies`).
- A device that lacks a queue role is not rejected. The role check at
  `vulkan_device.cpp:122-142` only gates log lines. `QueueRolesDoNotDecideAcceptance`
  and `AcceptsDeviceMissingQueueRoles` state this.
- `select_physical_device` never fills the requirement's extension-name
  vector. Its `data()` is therefore null, and the extension and anisotropy
  checks never run. This rests on an assumption: the C++ standard leaves
  `data()` of an empty vector unspecified, and null is what the major
  standard libraries return. So every device whose evaluation does not throw is
  accepted, and the first enumerated device wins
  (`EngineAcceptsEveryScannedDevice`, `EngineSelectsFirstDevice`). The model
  reads a null `data()` as `deviceExtensionNames == None`.
- The logical device's queue list does not merge present with transfer.
  When both differ from graphics but equal each other, one family gets two
  entries. The Vulkan specification forbids that for `VkDeviceCreateInfo`
  (`QueueCreateInfosKeepPresentTransferDuplicate`).
- The swapchain creator scans the present modes over `format_count`
  entries, not over the number of present modes. `vulkan_device_query_swapchain_support`
  fills neither `format_count` nor `present_modes`. The model takes both
  fields of `SwapchainSupport` as given, and requires the count to be no
  larger than the list, because a longer scan reads past the array.
- Asking `filesystem_open` for READ and WRITE yields "w+" or "w+b", which
  truncates the file (creating it when missing) before anything is read
  (`ReadWriteTruncates`).
- `minImageCount + 1` is computed in `uint32_t` and wraps at the largest
  value (`ImageCountWrapsAtU32Max`). The lower bound on the image count is
  proved only below that value.

## Model

| member | source | states |
|---|---|---|
| `Common.ToU32` | engine/src/vulkan/vulkan_swapchain.cpp:47-48 | The `static_cast<uint32_t>` of an `int` is its value modulo 2^32: unchanged when in range, congruent otherwise. |
| `Device.QueriedFamiliesAsWritten` | engine/src/vulkan/vulkan_device.cpp:69-71 | As written, the queue-family query is issued with a count of 0, so the scan sees no family at all. |
| `Device.AsWrittenScanAssignsNoFamily` | engine/src/vulkan/vulkan_device.cpp:56-71 | As a consequence, with the query as written every role keeps the sentinel 0xFFFFFFFF, whatever the driver reports. |
| `Device.QueriedFamilies` | engine/src/vulkan/vulkan_device.cpp:69-71 | With the array's capacity as the count, the scan sees a prefix of the driver's families, and all of them when there are at most 32. |
| `Device.ScanStep` | engine/src/vulkan/vulkan_device.cpp:76-113 | One iteration of the family loop: it throws exactly when this family's present query fails. Otherwise the running minimum transfer score never rises, and the transfer index moves only to this family, only when it is transfer-capable with a score no greater than the running minimum. |
| `Device.ScanPrefix` | engine/src/vulkan/vulkan_device.cpp:76-113 | The loop over the first n families, starting from every role at 0xFFFFFFFF and a minimum score of 255. Its meaning is stated by `ScanPrefixFailure`, `ScanPrefixRoles` and `ScanPrefixTransfer`. |
| `Device.ScanPrefixFailure` | engine/src/vulkan/vulkan_device.cpp:101-109 | The scan throws exactly when some family's surface-support query fails, and it stops at the first such family. The source's error carries no index; the model's error records it. |
| `Device.ScanPrefixRoles` | engine/src/vulkan/vulkan_device.cpp:76-113 | After any prefix, the graphics, compute and present indices are each the last family in it with that capability, or the sentinel when none has it. |
| `Device.ScanPrefixTransfer` | engine/src/vulkan/vulkan_device.cpp:75-99 | The transfer index is a transfer-capable family of least score (graphics flag + compute flag). Among families of that score it is the last, because the comparison is `<=`. The running minimum is that family's score, or 255 when there is none. |
| `Device.ScanQueueFamilies` | engine/src/vulkan/vulkan_device.cpp:56-113 | The whole scan either throws at the first failing present query, or yields each role's last family and the most dedicated transfer family, starting from the sentinel 0xFFFFFFFF. |
| `Device.ExtensionsSatisfiedAsWritten` | engine/src/vulkan/vulkan_device.cpp:150-171 | The nested extension loop as written: an empty available list accepts; otherwise each required name must match some available name by address. |
| `Device.ExtensionsSatisfied` | engine/src/vulkan/vulkan_device.cpp:150-171 | The same loop with names compared by text. |
| `Device.ExtensionCompareByAddressRejectsListedName` | engine/src/vulkan/vulkan_device.cpp:155-170 | The extension check as written compares addresses. So a required name that the driver lists under the same text elsewhere in memory is reported missing. |
| `Device.ExtensionCheckIgnoresAddresses` | engine/src/vulkan/vulkan_device.cpp:152-171 | The check by text depends only on the names' texts, not on where they are stored. |
| `Device.ExtensionsSatisfiedByTexts` | engine/src/vulkan/vulkan_device.cpp:150-171 | An empty available list accepts every requirement. A non-empty one accepts exactly when every required text is among the available texts, so one missing name rejects the device. |
| `Device.MeetsRequirements` | engine/src/vulkan/vulkan_device.cpp:48-191 | For either query count: a required discrete GPU of another type is rejected before any queue scan. Otherwise the result is the scan's failure, or acceptance decided only by the extension list and anisotropy. Extension names are compared by text (`ExtensionsSatisfied`), the corrected check, not by address as the source does. When the name vector has no storage, every scanned device is accepted without the anisotropy check. |
| `Device.MeetsQueueRequirements` | engine/src/vulkan/vulkan_device.cpp:122-131 | The role condition: each requested role has a family other than 0xFFFFFFFF. The source only logs on it. |
| `Device.QueueRolesDoNotDecideAcceptance` | engine/src/vulkan/vulkan_device.cpp:122-142 | Two devices that differ only in their queue families get the same verdict, for either query count. |
| `Device.AcceptsDeviceMissingQueueRoles` | engine/src/vulkan/vulkan_device.cpp:122-142 | A device with no graphics or present family fails the role test but is still accepted. |
| `Device.EngineRequirements` | engine/src/vulkan/vulkan_device.cpp:219-225 | The requirements the backend builds: graphics, present, compute and transfer, sampler anisotropy, any device type, and a name vector that is never filled. |
| `Device.SelectFirstAccepted` | engine/src/vulkan/vulkan_device.cpp:205-294 | The loop returns the first accepted device, and every earlier device was rejected. If nothing is returned, every device was rejected. If the loop throws, it throws the error of an evaluation reached after only rejections. |
| `Device.SelectPhysicalDevice` | engine/src/vulkan/vulkan_device.cpp:194-305 | For either query count: zero devices gives false. Otherwise the first device in enumeration order that passes the engine's requirements is selected, with its graphics, present and transfer indices and its surface support stored. If none passes, the result is false. |
| `Device.EngineAcceptsEveryScannedDevice` | engine/src/vulkan/vulkan_device.cpp:219-232 | Under the requirements the backend builds, for either query count, any device whose evaluation does not throw is accepted. |
| `Device.EngineSelectsFirstDevice` | engine/src/vulkan/vulkan_device.cpp:205-293 | Hence device 0 is selected whenever its evaluation does not throw. |
| `Device.QueueCreateInfos` | engine/src/vulkan/vulkan_device.cpp:316-349 | The list has 1 + [present≠graphics] + [transfer≠graphics] entries. Entry 0 is the graphics family with 2 queues. Every other entry is a non-graphics family with 1 queue, present before transfer. |
| `Device.QueueCreateInfosCoverRoles` | engine/src/vulkan/vulkan_device.cpp:329-349 | The list asks for a second graphics queue and for at least one queue in the present and transfer families. |
| `Device.QueueCreateInfosKeepPresentTransferDuplicate` | engine/src/vulkan/vulkan_device.cpp:316-337 | Present and transfer are not merged with each other: equal to each other and distinct from graphics, they yield two identical entries. |
| `Device.AsWrittenSelectsFirstDeviceWithoutFamilies` | engine/src/vulkan/vulkan_device.cpp:56-76 | With the query as written and at least one device, device 0 is selected with graphics, present and transfer all 0xFFFFFFFF, and the create request has one entry, two queues of family 0xFFFFFFFF, with both fetched queues in that family. Whether the driver accepts that request is outside the model. |
| `Device.CreateDevice` | engine/src/vulkan/vulkan_device.cpp:307-390 | For either query count, and when the driver calls succeed, device creation returns false or throws exactly as selection does. On success its queue list is `QueueCreateInfos` of the selected graphics, present and transfer families, and it enables only the swapchain extension and anisotropy, and fetches graphics and present queue 0, both of which the queue list requests. |
| `Swapchain.FindPreferredFormat` | engine/src/vulkan/vulkan_swapchain.cpp:12-17 | The scan finds the first B8G8R8A8_SRGB / SRGB_NONLINEAR entry, or reports that none exists. |
| `Swapchain.SelectSurfaceFormat` | engine/src/vulkan/vulkan_swapchain.cpp:9-20 | The result is an entry of the non-empty list: the preferred format when listed, otherwise `available_formats[0]`. |
| `Swapchain.SelectPresentMode` | engine/src/vulkan/vulkan_swapchain.cpp:22-35 | MAILBOX is chosen iff it is among the first `count` entries. Otherwise the choice is FIFO, listed or not. |
| `Swapchain.Clamp` | engine/src/vulkan/vulkan_swapchain.cpp:50-55 | `std::clamp` with lo ≤ hi gives the point of [lo, hi] nearest the value, and leaves in-range values unchanged. |
| `Swapchain.SelectExtent` | engine/src/vulkan/vulkan_swapchain.cpp:37-59 | When the current width is not UINT32_MAX, the current extent is returned unchanged. Otherwise the converted framebuffer width and height are each the nearest point of [minImageExtent, maxImageExtent]. |
| `Swapchain.DefinedExtentIgnoresFramebuffer` | engine/src/vulkan/vulkan_swapchain.cpp:40-42 | Only the width is tested; when it is defined, the framebuffer size has no influence. |
| `Swapchain.SelectImageCount` | engine/src/vulkan/vulkan_swapchain.cpp:75-81 | The result is at most max whenever max > 0. It is at least min when max = 0 or max ≥ min. It is exactly min+1 when max = 0 or min < max, for min below UINT32_MAX. |
| `Swapchain.ImageCountWrapsAtU32Max` | engine/src/vulkan/vulkan_swapchain.cpp:75 | With min = UINT32_MAX and no maximum, the `uint32_t` addition wraps and the count is 0. |
| `Swapchain.SelectSharing` | engine/src/vulkan/vulkan_swapchain.cpp:96-107 | Different graphics and present families give CONCURRENT with exactly [graphics, present]. Equal families give EXCLUSIVE with no indices. |
| `Swapchain.CreateSwapchain` | engine/src/vulkan/vulkan_swapchain.cpp:61-133 | The create-info carries the preferred format when it is listed and `available_formats[0]` otherwise; MAILBOX iff it is among the first `format_count` modes and FIFO otherwise; the current extent when defined, else the nearest in-range framebuffer size per axis; an image count at most the maximum, at least the minimum and min+1 when room allows (below UINT32_MAX); CONCURRENT with exactly [graphics, present] for different families, EXCLUSIVE with no indices otherwise; one layer, colour-attachment usage, opaque alpha, clipping and the current transform. The stored format and extent equal those passed to creation. |
| `Swapchain.PresentModeFollowsFormatCount` | engine/src/vulkan/vulkan_swapchain.cpp:69-70 | The present-mode scan length is the format count: with a format count of 0, FIFO is chosen even when MAILBOX is listed, for any surface the creator accepts. |
| `MemoryBuffer.FindMemoryType` | engine/src/vulkan/vulkan_buffer.cpp:8-21 | The result is an index below memoryTypeCount, with bit i of the filter set and property flags that include every requested property. It is the smallest such index. It fails exactly when no index qualifies. |
| `MemoryBuffer.CreateBuffer` | engine/src/vulkan/vulkan_buffer.cpp:54-80 | The buffer has exclusive sharing and the requested size and usage. Its memory is `mem_reqs.size` bytes of the lowest suitable memory type, and the buffer fits in it whenever the driver reports at least the requested size. When the driver calls succeed, creation fails exactly when no type is suitable. |
| `MemoryBuffer.LoadData` | engine/src/vulkan/vulkan_buffer.cpp:28-36 | Bytes [0, size) become the input and the rest of the memory is unchanged. Every other field is unchanged, whatever `offset` and `flags` are. |
| `MemoryBuffer.LoadDataOverwrites` | engine/src/vulkan/vulkan_buffer.cpp:28-35 | A second upload of the same size erases every trace of the first. |
| `MemoryBuffer.Copy` | engine/src/vulkan/vulkan_buffer.cpp:37-53 | For a size within both buffers, target bytes [0, size) become source bytes [0, size), both from offset 0. The other target bytes and fields are unchanged. |
| `MemoryBuffer.CopyIdempotent` | engine/src/vulkan/vulkan_buffer.cpp:42-48 | Copying the same range twice equals copying it once. |
| `MemoryBuffer.StagingUpload` | engine/src/vulkan/vulkan_buffer.cpp:28-48 | Uploading into a staging buffer and then copying to a device buffer leaves the device buffer starting with the data and otherwise as before. |
| `Filesystem.ModeString` | engine/src/filesystem.cpp:26-36 | READ and WRITE give "w+b" or "w+". READ gives "rb" or "r". WRITE gives "wb" or "w". Neither is rejected. Under C's `fopen` rules the string grants exactly the requested read and write access, and it truncates or creates the file exactly when WRITE is requested. |
| `Filesystem.ReadWriteTruncates` | engine/src/filesystem.cpp:26-27 | READ together with WRITE opens a readable stream that truncates the file first. |
| `Filesystem.ModeStringInjective` | engine/src/filesystem.cpp:26-31 | Distinct requests never map to the same mode string. |
| `Filesystem.Open` | engine/src/filesystem.cpp:20-49 | The open succeeds iff the mode is valid and `fopen` succeeds. On success the handle is the opened stream, non-null and valid. Otherwise the handle is null and invalid. |
| `Filesystem.Close` | engine/src/filesystem.cpp:51-57 | An open handle becomes null and invalid. A null handle is left unchanged. |
| `Filesystem.CloseIdempotent` | engine/src/filesystem.cpp:51-57 | Closing twice equals closing once. |
| `Filesystem.CloseAfterOpen` | engine/src/filesystem.cpp:39-57 | Closing whatever an open produced gives the null, invalid handle. |
| `Filesystem.Read` | engine/src/filesystem.cpp:88-98 | A null handle or a missing buffer gives false and no byte count. Otherwise the count is what `fread` returned, and the result is true exactly when it equals the requested size. |
| `Filesystem.Write` | engine/src/filesystem.cpp:118-129 | A null handle gives false. Otherwise the count is what `fwrite` returned, and the result is true exactly when it equals the requested size. There is no check on the data pointer. |
| `Filesystem.ClosedHandleTransfersNothing` | engine/src/filesystem.cpp:88-98 | After a close, reads and writes fail. |

## Findings

| source | as written | input that shows it | evidently intended | confidence | as-written member | corrected member |
|---|---|---|---|---|---|---|
| engine/src/vulkan/vulkan_device.cpp:69-71 | `queue_family_count` is 0 when it is passed to the query along with the 32-entry array. Under the Vulkan API's array-query rule, at most "count" entries are written, so none are, and the loop scans no family. | any device that reports at least one queue family: every role stays 0xFFFFFFFF | pass the array's capacity (32) as the count | high (Vulkan array-query rule), not executed | `Device.QueriedFamiliesAsWritten` (exhibited by `Device.AsWrittenScanAssignsNoFamily`) | `Device.QueriedFamilies`; the device evaluation, selection and creation use it under `CountIsCapacity` |
| engine/src/vulkan/vulkan_device.cpp:158-159 | `const char *` compared with `extensionName.data()` by `==`, which compares addresses | required `VK_KHR_swapchain` at one address, available `VK_KHR_swapchain` at another: reported missing | compare the texts (`strcmp`) | high, not executed; unreachable in the engine, whose name vector is never filled | `Device.ExtensionsSatisfiedAsWritten` (exhibited by `Device.ExtensionCompareByAddressRejectsListedName`) | `Device.ExtensionsSatisfied` (proved by `Device.ExtensionCheckIgnoresAddresses`); `Device.MeetsRequirements` uses it |

## Left out

- Every Vulkan, GLFW and stdio call (instance, device, swapchain, buffer and memory creation; map/unmap; queue submission and `vkQueueWaitIdle`; `fopen`, `fread`, `fwrite`, `fclose`). Their results are inputs to the model: queue families, present-query outcomes, extension lists, surface support, memory requirements, swapchain images, the `fopen` function, and the `fread`/`fwrite` counts.
- `VK_CHECK` failures of `vkCreateSwapchainKHR`: these are fatal, with no behaviour to model.
- Logging, the device-type and driver-version printout, the floating-point GiB heap report, and the queue priority (floating point).
- `vulkan_device_query_swapchain_support`: it is a pair of driver calls. Its output, the capabilities and the formats, is part of the `swapchainSupport` field of each device.
- `vulkan_swapchain_create_image_views`: it creates `context->swapchain.image_count` views, a field the creator never sets. `vulkan_buffer_destroy` is a pair of driver calls.
- `filesystem_exists`, `filesystem_read_line`, `filesystem_write_line` and `filesystem_read_all_bytes`: each is a thin wrapper over a stdio call. They are outside the modelled handle state and read/write result rules.
- The pipeline, render pass, shader, command-buffer, image, platform, application and logger files: constant create-info structures, one-shot submission, and window and event handling. The frame loop, fences and semaphores are not part of this model.
- `Filesystem.Read`: the size is a `nat`. A negative `long` size, which C converts to a huge `size_t`, is not modelled.
- `Filesystem.Write`: the size is a `nat`, for the same reason as `Filesystem.Read`.
- `MemoryBuffer.LoadData`: the size is a `nat`. A negative `long` size, which the `(size_t)` cast at `vulkan_buffer.cpp:34` turns into a huge count, is not modelled.
- `MemoryBuffer.Copy`: returns only the new target. Because the source is a value, "the source is unchanged" holds by construction and is not stated as a contract.
- `MemoryBuffer.FindMemoryType`: `1 << i` is taken to be bit i of a 32-bit mask. In C, the `int` shift at i = 31 is undefined, and compilers usually produce bit 31.
- `Swapchain.CreateSwapchain`: the create-info holds the two queue family indices as values. In the source, `pQueueFamilyIndices` points to an array declared inside the `if` block (`vulkan_swapchain.cpp:100-102`), and `vkCreateSwapchainKHR` reads it at line 116 after the array's lifetime has ended. That dangling read is not modelled. The image-count clauses, like those of `Swapchain.SelectImageCount`, are stated only for `minImageCount` below UINT32_MAX, where the addition does not wrap.
- `Swapchain.SelectSharing`: returns the two indices as values, for the same reason as `Swapchain.CreateSwapchain`.
- `Device.MeetsRequirements`: the driver calls each evaluation makes (`getSurfaceCapabilitiesKHR` and `getSurfaceFormatsKHR` at `vulkan_device.cpp:35-39`, `enumerateDeviceExtensionProperties` at `vulkan_device.cpp:149-150`) are assumed to succeed. The `vk::SystemError` they throw on a non-success result is not modelled.
- `Device.CreateDevice`: `createDevice` at `vulkan_device.cpp:375-376` is assumed to succeed. Its `vk::SystemError` is not modelled, and neither is the driver's verdict on the request, such as a family index of 0xFFFFFFFF, which Vulkan's valid-usage rules forbid.
- `MemoryBuffer.CreateBuffer`: `createBuffer`, `allocateMemory` and `bindBufferMemory` at `vulkan_buffer.cpp:62` and `vulkan_buffer.cpp:75-79` are assumed to succeed. Their `vk::SystemError` is not modelled.
- `Device.SelectPhysicalDevice`: the "no device passed" result assumes `context->device.physical_device` is null on entry. The source decides it by testing that field (`vulkan_device.cpp:297`), which is written only when a device is chosen (`vulkan_device.cpp:282`). No code shown here zeroes the field, and the context comes from `malloc` (`renderer_backend.cpp:24`).
- `Device.SelectPhysicalDevice`: selection writes only the capabilities and formats of the surface support (`vulkan_device.cpp:35-39`). The `formatCount` and `presentModes` fields of each device's `swapchainSupport` stand for the context fields `format_count` and `present_modes`, which selection never writes. A faithful input gives every device the same values for them.
- `Device.MeetsRequirements`: a null `data()` of the empty name vector is assumed. With a non-null `data()`, the extension and anisotropy checks at `vulkan_device.cpp:147-181` would run (`deviceExtensionNames == Some([])`), and a device without `samplerAnisotropy` would be rejected.
- `Swapchain.SelectImageCount`: the lower bound is stated only for `minImageCount` below UINT32_MAX, where the addition does not wrap.
