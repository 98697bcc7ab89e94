/**
 * Batch sizes for the task classifier and the OCR reader, derived from the
 * available GPU and system memory (in GB), which are passed in as inputs.
 */
module BatchOptimiser {

  import opened Numeric

  /** The GPU formula is used only when asked for and GPU memory is reported. */
  predicate UsesGpu(useGpu: bool, gpuMemoryGb: real) {
    useGpu && gpuMemoryGb > 0.0
  }

  /** 60% of GPU memory, 100 MB base, 2.5 MB per image. */
  function ClassifierGpuEstimate(gpuMemoryGb: real): int {
    Trunc((gpuMemoryGb * 1024.0 * 0.6 - 100.0) / 2.5)
  }

  /** 30% of RAM, 50 MB base, 5 MB per image. */
  function ClassifierCpuEstimate(systemMemoryGb: real): int {
    Trunc((systemMemoryGb * 1024.0 * 0.3 - 50.0) / 5.0)
  }

  /** 50% of GPU memory, 200 MB base, 75 MB per image. */
  function OcrGpuEstimate(gpuMemoryGb: real): int {
    Trunc((gpuMemoryGb * 1024.0 * 0.5 - 200.0) / 75.0)
  }

  /** 20% of RAM, 100 MB base, 100 MB per image. */
  function OcrCpuEstimate(systemMemoryGb: real): int {
    Trunc((systemMemoryGb * 1024.0 * 0.2 - 100.0) / 100.0)
  }

  /** `calculate_task_classifier_batch_size`. */
  function ClassifierBatchSize(useGpu: bool, gpuMemoryGb: real, systemMemoryGb: real): (b: int)
    ensures UsesGpu(useGpu, gpuMemoryGb) ==> 8 <= b <= 128
    ensures !UsesGpu(useGpu, gpuMemoryGb) ==> 4 <= b <= 32
    ensures UsesGpu(useGpu, gpuMemoryGb) && 8 <= ClassifierGpuEstimate(gpuMemoryGb) <= 128
            ==> b == ClassifierGpuEstimate(gpuMemoryGb)
    ensures !UsesGpu(useGpu, gpuMemoryGb) && 4 <= ClassifierCpuEstimate(systemMemoryGb) <= 32
            ==> b == ClassifierCpuEstimate(systemMemoryGb)
  {
    if UsesGpu(useGpu, gpuMemoryGb) then Clamp(ClassifierGpuEstimate(gpuMemoryGb), 8, 128)
    else Clamp(ClassifierCpuEstimate(systemMemoryGb), 4, 32)
  }

  /** `calculate_ocr_batch_size`. */
  function OcrBatchSize(useGpu: bool, gpuMemoryGb: real, systemMemoryGb: real): (b: int)
    ensures UsesGpu(useGpu, gpuMemoryGb) ==> 4 <= b <= 32
    ensures !UsesGpu(useGpu, gpuMemoryGb) ==> 2 <= b <= 8
    ensures UsesGpu(useGpu, gpuMemoryGb) && 4 <= OcrGpuEstimate(gpuMemoryGb) <= 32
            ==> b == OcrGpuEstimate(gpuMemoryGb)
    ensures !UsesGpu(useGpu, gpuMemoryGb) && 2 <= OcrCpuEstimate(systemMemoryGb) <= 8
            ==> b == OcrCpuEstimate(systemMemoryGb)
  {
    if UsesGpu(useGpu, gpuMemoryGb) then Clamp(OcrGpuEstimate(gpuMemoryGb), 4, 32)
    else Clamp(OcrCpuEstimate(systemMemoryGb), 2, 8)
  }

  /** Asking for the GPU when it reports no memory gives the CPU sizes. */
  lemma GpuWithoutMemoryFallsBack(gpuMemoryGb: real, systemMemoryGb: real)
    requires gpuMemoryGb <= 0.0
    ensures ClassifierBatchSize(true, gpuMemoryGb, systemMemoryGb)
         == ClassifierBatchSize(false, gpuMemoryGb, systemMemoryGb)
         == Clamp(ClassifierCpuEstimate(systemMemoryGb), 4, 32)
    ensures OcrBatchSize(true, gpuMemoryGb, systemMemoryGb)
         == OcrBatchSize(false, gpuMemoryGb, systemMemoryGb)
         == Clamp(OcrCpuEstimate(systemMemoryGb), 2, 8)
  {
  }

  /** On a fixed path, more memory never gives a smaller batch. */
  lemma BatchSizesMonotone(useGpu: bool, g1: real, g2: real, s1: real, s2: real)
    requires g1 <= g2 && s1 <= s2
    requires UsesGpu(useGpu, g1) == UsesGpu(useGpu, g2)
    ensures ClassifierBatchSize(useGpu, g1, s1) <= ClassifierBatchSize(useGpu, g2, s2)
    ensures OcrBatchSize(useGpu, g1, s1) <= OcrBatchSize(useGpu, g2, s2)
  {
    TruncMonotone((g1 * 1024.0 * 0.6 - 100.0) / 2.5, (g2 * 1024.0 * 0.6 - 100.0) / 2.5);
    TruncMonotone((s1 * 1024.0 * 0.3 - 50.0) / 5.0, (s2 * 1024.0 * 0.3 - 50.0) / 5.0);
    TruncMonotone((g1 * 1024.0 * 0.5 - 200.0) / 75.0, (g2 * 1024.0 * 0.5 - 200.0) / 75.0);
    TruncMonotone((s1 * 1024.0 * 0.2 - 100.0) / 100.0, (s2 * 1024.0 * 0.2 - 100.0) / 100.0);
    ClampMonotone(ClassifierGpuEstimate(g1), ClassifierGpuEstimate(g2), 8, 128);
    ClampMonotone(ClassifierCpuEstimate(s1), ClassifierCpuEstimate(s2), 4, 32);
    ClampMonotone(OcrGpuEstimate(g1), OcrGpuEstimate(g2), 4, 32);
    ClampMonotone(OcrCpuEstimate(s1), OcrCpuEstimate(s2), 2, 8);
  }

  /** Half a gigabyte of RAM: 20 classifier images, and the OCR floor of 2. */
  lemma SmallMachine()
    ensures ClassifierBatchSize(false, 0.0, 0.5) == 20
    ensures OcrBatchSize(false, 0.0, 0.5) == 2
  {
    assert ClassifierCpuEstimate(0.5) == 20;
    assert OcrCpuEstimate(0.5) == 0;
  }

  /** An 8 GB GPU saturates both caps. */
  lemma LargeGpu()
    ensures ClassifierBatchSize(true, 8.0, 16.0) == 128
    ensures OcrBatchSize(true, 8.0, 16.0) == 32
  {
    assert ClassifierGpuEstimate(8.0) == 1926;
    assert OcrGpuEstimate(8.0) == 51;
  }
}
